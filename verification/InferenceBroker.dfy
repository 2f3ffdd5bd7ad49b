/** The stop-and-wait exchange of inference requests between the coordinator and a leased worker. */
module InferenceBroker {
  import opened Wrappers

  type Id = nat

  datatype Request = Request(id: Id, body: seq<nat>)

  datatype Reply = Reply(request: Id, body: seq<nat>)

  datatype Waiter = Pending | Answered(reply: Reply) | Refused

  datatype Error = AlreadyRegistered | LeaseClosed | BodyTooLarge | WrongSession | DifferentReply

  /** What an exchange answers at once; `Wait` means it now waits on the queue. */
  datatype Answer = Stop | Serve(request: Request) | Wait

  /**
   One lease's exchange. `submitted`, `known`, `handed` and `completed` record its history: the requests
   put, their identities, the requests given to the worker, and what each finished waiter returned.
   */
  datatype Line = Line(
    queue: seq<Request>, replies: map<Id, Reply>, waiters: map<Id, Waiter>, active: Option<Request>, closed: bool, polling: bool,
    submitted: seq<Request>, known: set<Id>, handed: seq<Request>, completed: map<Id, Waiter>)

  /** Requests are handed out in submission order, each once. */
  predicate InOrder(x: Line) {
    && x.handed + x.queue == x.submitted
    && (forall i :: 0 <= i < |x.submitted| ==> x.submitted[i].id in x.known)
    && forall i, j :: 0 <= i < j < |x.submitted| ==> x.submitted[i].id != x.submitted[j].id
  }

  /** Everything handed out but the active request has its reply. */
  predicate OneOutstanding(x: Line) {
    && (x.active.Some? ==> x.handed != [] && x.active.value == x.handed[|x.handed| - 1] && !x.polling)
    && (forall i :: 0 <= i < |x.handed| ==> x.handed[i].id in x.replies || x.active == Some(x.handed[i]))
    && (forall r :: r in x.replies ==> x.replies[r].request == r)
  }

  /** A waiter waits for a reply that is not there yet, or holds the stored one, or was refused. */
  predicate WaitingOk(x: Line) {
    forall w :: w in x.waiters ==>
      && w in x.known && w !in x.completed
      && match x.waiters[w]
         case Pending => w !in x.replies && !x.closed
         case Answered(r) => w in x.replies && x.replies[w] == r
         case Refused => x.closed
  }

  predicate CompletedOk(x: Line) {
    forall w :: w in x.completed ==>
      && w in x.known
      && match x.completed[w]
         case Pending => false
         case Answered(r) => w in x.replies && x.replies[w] == r
         case Refused => x.closed
  }

  predicate LineOk(x: Line) {
    InOrder(x) && OneOutstanding(x) && WaitingOk(x) && CompletedOk(x)
  }

  /** Order, replies, and the active request until its reply is stored. */
  predicate KeepsOrder(x: Line, y: Line) {
    && x.submitted <= y.submitted && x.known <= y.known && x.handed <= y.handed && (x.closed ==> y.closed)
    && (forall r :: r in x.replies ==> r in y.replies && y.replies[r] == x.replies[r])
    && (x.active.Some? ==> y.active == x.active || x.active.value.id in y.replies)
  }

  /** A waiter's answer is final, and each request's waiter completes at most once. */
  predicate KeepsWaiters(x: Line, y: Line) {
    && (forall w :: w in x.completed ==> w in y.completed && y.completed[w] == x.completed[w])
    && (forall w :: w in y.waiters && w in x.known ==> w in x.waiters && (!x.waiters[w].Pending? ==> y.waiters[w] == x.waiters[w]))
    && (forall w :: w in y.completed && w in x.known ==>
          w in x.completed || (w in x.waiters && (!x.waiters[w].Pending? ==> y.completed[w] == x.waiters[w])))
  }

  /** What later states keep of an earlier one. */
  predicate Progress(x: Line, y: Line) {
    KeepsOrder(x, y) && KeepsWaiters(x, y)
  }

  // ---------------------------------------------------------------- the atomic steps

  function Submit(x: Line, r: Request): Line {
    x.(queue := x.queue + [r], waiters := x.waiters[r.id := Pending],
       submitted := x.submitted + [r], known := x.known + {r.id})
  }

  /** A finished waiter returns to its caller and is forgotten. */
  function Finish(x: Line, id: Id): Line
    requires id in x.waiters
  {
    x.(waiters := x.waiters - {id}, completed := x.completed[id := x.waiters[id]])
  }

  /** The waiting caller is cancelled. */
  function Abandon(x: Line, id: Id): Line {
    x.(waiters := x.waiters - {id})
  }

  function Store(x: Line, reply: Reply): Line {
    x.(replies := x.replies[reply.request := reply],
       waiters := if reply.request in x.waiters && x.waiters[reply.request].Pending?
                  then x.waiters[reply.request := Answered(reply)] else x.waiters,
       active := if x.active.Some? && x.active.value.id == reply.request then None else x.active)
  }

  function HandOut(x: Line): Line
    requires x.queue != []
  {
    x.(queue := x.queue[1..], active := Some(x.queue[0]), polling := false, handed := x.handed + [x.queue[0]])
  }

  function TimeOut(x: Line): Line { x.(polling := false) }

  function Closed(x: Line): Line {
    x.(closed := true, waiters := map w | w in x.waiters :: if x.waiters[w].Pending? then Refused else x.waiters[w])
  }

  function Accepts(x: Line, reply: Option<Reply>): bool {
    reply.Some? && reply.value.request in x.replies ==> x.replies[reply.value.request] == reply.value
  }

  function AfterReply(x: Line, reply: Option<Reply>): Line {
    if reply.Some? then Store(x, reply.value) else x
  }

  /** The exchange up to where it may wait. */
  function Served(x: Line): (Line, Answer) {
    if x.active.Some? then (x, Serve(x.active.value))
    else if x.queue != [] then (HandOut(x), Serve(x.queue[0]))
    else (x.(polling := true), Wait)
  }

  lemma SubmitOrder(x: Line, r: Request)
    requires InOrder(x) && OneOutstanding(x) && r.id !in x.known
    ensures InOrder(Submit(x, r)) && OneOutstanding(Submit(x, r)) && KeepsOrder(x, Submit(x, r))
  {
    var y := Submit(x, r);
    assert y.handed + y.queue == (x.handed + x.queue) + [r];
  }

  lemma SubmitKeeps(x: Line, r: Request)
    requires LineOk(x) && r.id !in x.known && r.id !in x.replies && !x.closed
    ensures LineOk(Submit(x, r)) && Progress(x, Submit(x, r))
  {
    SubmitOrder(x, r);
    hide InOrder;
    hide OneOutstanding;
    hide KeepsOrder;
  }

  lemma FinishKeeps(x: Line, id: Id)
    requires LineOk(x) && id in x.waiters && !x.waiters[id].Pending?
    ensures LineOk(Finish(x, id)) && Progress(x, Finish(x, id))
  {
    assert InOrder(Finish(x, id)) && OneOutstanding(Finish(x, id)) && KeepsOrder(x, Finish(x, id));
    hide InOrder;
    hide OneOutstanding;
    hide KeepsOrder;
  }

  lemma AbandonKeeps(x: Line, id: Id)
    requires LineOk(x)
    ensures LineOk(Abandon(x, id)) && Progress(x, Abandon(x, id))
  {
    assert InOrder(Abandon(x, id)) && OneOutstanding(Abandon(x, id)) && KeepsOrder(x, Abandon(x, id));
    hide InOrder;
    hide OneOutstanding;
    hide KeepsOrder;
  }

  lemma StoreOrder(x: Line, reply: Reply)
    requires InOrder(x) && OneOutstanding(x) && Accepts(x, Some(reply))
    ensures InOrder(Store(x, reply)) && OneOutstanding(Store(x, reply)) && KeepsOrder(x, Store(x, reply))
  {
  }

  lemma StoreKeeps(x: Line, reply: Reply)
    requires LineOk(x) && Accepts(x, Some(reply))
    ensures LineOk(Store(x, reply)) && Progress(x, Store(x, reply))
  {
    StoreOrder(x, reply);
    hide InOrder;
    hide OneOutstanding;
    hide KeepsOrder;
  }

  /** The queue's head becomes active only when every earlier request has been answered. */
  lemma HandOutKeeps(x: Line)
    requires LineOk(x) && x.queue != [] && x.active.None?
    ensures LineOk(HandOut(x)) && Progress(x, HandOut(x))
    ensures HandOut(x).active == Some(x.submitted[|x.handed|]) == Some(x.queue[0])
    ensures forall i :: 0 <= i < |x.handed| ==> x.handed[i].id in x.replies
  {
    var y := HandOut(x);
    assert y.handed + y.queue == x.handed + ([x.queue[0]] + x.queue[1..]) == x.submitted;
    assert x.submitted[|x.handed|] == x.queue[0];
  }

  lemma ClosedKeeps(x: Line)
    requires LineOk(x)
    ensures LineOk(Closed(x)) && Progress(x, Closed(x))
  {
  }

  lemma PollingKeeps(x: Line, polling: bool)
    requires LineOk(x) && (polling ==> x.active.None?)
    ensures LineOk(x.(polling := polling)) && Progress(x, x.(polling := polling))
  {
  }

  lemma ServedKeeps(x: Line)
    requires LineOk(x)
    ensures LineOk(Served(x).0) && Progress(x, Served(x).0)
    ensures Served(x).1.Serve? ==> Served(x).0.active == Some(Served(x).1.request)
  {
    hide LineOk;
    hide Progress;
    hide HandOut;
    if x.active.Some? {
      ProgressReflexive(x);
    } else if x.queue != [] {
      HandOutKeeps(x);
    } else {
      PollingKeeps(x, true);
    }
  }

  lemma ProgressReflexive(x: Line)
    requires LineOk(x)
    ensures Progress(x, x)
  {
  }

  lemma ProgressTransitive(x: Line, y: Line, z: Line)
    requires Progress(x, y) && Progress(y, z)
    ensures Progress(x, z)
  {
  }

  // ---------------------------------------------------------------- what one exchange does

  /** The next answer: the active request again, or the head of the queue, which becomes active, or a wait. */
  lemma ServesNext(x: Line)
    ensures var (y, answer) := Served(x);
            if x.active.Some? then y == x && answer == Serve(x.active.value)
            else if x.queue == [] then answer == Wait && y == x.(polling := true)
            else
              && answer == Serve(x.queue[0]) && y.active == Some(x.queue[0]) && y.handed == x.handed + [x.queue[0]]
              && [x.queue[0]] + y.queue == x.queue && !y.polling
              && y == x.(active := y.active, handed := y.handed, queue := y.queue, polling := y.polling)
  {
  }

  /** A reply is stored, answers its waiter if that still waits, and ends the active request if it is for that. */
  lemma ReplyStored(x: Line, reply: Reply)
    ensures var y, r := Store(x, reply), reply.request;
            && r in y.replies && y.replies[r] == reply && (forall s :: s in x.replies && s != r ==> s in y.replies && y.replies[s] == x.replies[s])
            && y.replies.Keys == x.replies.Keys + {r} && y.waiters.Keys == x.waiters.Keys
            && (forall w :: w in x.waiters ==> y.waiters[w] == if w == r && x.waiters[w] == Pending then Answered(reply) else x.waiters[w])
            && y.active == (if x.active.Some? && x.active.value.id == r then None else x.active)
            && y == x.(replies := y.replies, waiters := y.waiters, active := y.active)
  {
  }

  /** The exchange that brings the reply to the active request is served the next one in the queue, or waits. */
  lemma ReplyMovesOn(x: Line, reply: Reply)
    requires x.active.Some? && x.active.value.id == reply.request
    ensures Served(AfterReply(x, Some(reply))).1 == if x.queue == [] then Wait else Serve(x.queue[0])
    ensures reply.request in x.waiters && x.waiters[reply.request] == Pending ==>
              Served(AfterReply(x, Some(reply))).0.waiters[reply.request] == Answered(reply)
  {
  }

  /** A request joins the end of the queue and waits for its reply. */
  lemma RequestWaits(x: Line, r: Request)
    ensures var y := Submit(x, r);
            && y.queue == x.queue + [r] && y.submitted == x.submitted + [r] && y.known == x.known + {r.id}
            && y.waiters.Keys == x.waiters.Keys + {r.id} && y.waiters[r.id] == Pending
            && (forall w :: w in x.waiters && w != r.id ==> y.waiters[w] == x.waiters[w])
            && y == x.(queue := y.queue, submitted := y.submitted, known := y.known, waiters := y.waiters)
  {
  }

  /** A finished waiter returns what it holds, once; a cancelled caller leaves no trace but its request. */
  lemma WaiterLeaves(x: Line, id: Id)
    requires id in x.waiters
    ensures var y := Finish(x, id);
            && id !in y.waiters && id in y.completed && y.completed[id] == x.waiters[id]
            && (forall w :: w in x.completed && w != id ==> w in y.completed && y.completed[w] == x.completed[w])
            && (forall w :: w in x.waiters && w != id ==> w in y.waiters && y.waiters[w] == x.waiters[w])
            && y.waiters.Keys == x.waiters.Keys - {id} && y == x.(waiters := y.waiters, completed := y.completed)
    ensures var y := Abandon(x, id);
            && y.waiters.Keys == x.waiters.Keys - {id} && y == x.(waiters := y.waiters)
            && (forall w :: w in y.waiters ==> y.waiters[w] == x.waiters[w])
  {
  }

  /** Closing refuses exactly those that wait; a wait that times out ends and changes nothing else. */
  lemma ClosedExactly(x: Line)
    ensures var y := Closed(x);
            && y.closed && y.waiters.Keys == x.waiters.Keys && y == x.(closed := true, waiters := y.waiters)
            && forall w :: w in x.waiters ==> y.waiters[w] == if x.waiters[w] == Pending then Refused else x.waiters[w]
    ensures TimeOut(x) == x.(polling := false)
    ensures Opened() == Line([], map[], map[], None, false, false, [], {}, [], map[])
  {
  }

  // ---------------------------------------------------------------- every run of one lease

  datatype Event =
    | RequestPut(request: Request)
    | Returned(id: Id)
    | CallerCancelled(id: Id)
    | Exchanged(reply: Option<Reply>)
    | Woken
    | TimedOut
    | LeaseClosed

  /** One atomic step; the worker runs one exchange at a time, and new requests have fresh identities. */
  predicate Step(x: Line, y: Line, e: Event) {
    match e
    case RequestPut(r) => !x.closed && r.id !in x.known && r.id !in x.replies && y == Submit(x, r)
    case Returned(id) => id in x.waiters && !x.waiters[id].Pending? && y == Finish(x, id)
    case CallerCancelled(id) => y == Abandon(x, id)
    case Exchanged(reply) =>
      !x.polling && !x.closed && y == if Accepts(x, reply) then Served(AfterReply(x, reply)).0 else x
    case Woken => x.polling && x.queue != [] && y == HandOut(x)
    case TimedOut => x.polling && y == TimeOut(x)
    case LeaseClosed => y == Closed(x)
  }

  lemma StepKeeps(x: Line, y: Line, e: Event)
    requires LineOk(x) && Step(x, y, e)
    ensures LineOk(y) && Progress(x, y)
  {
    assert x.polling ==> x.active.None?;
    hide LineOk;
    hide Progress;
    hide Submit;
    hide Finish;
    hide Abandon;
    hide Store;
    hide Served;
    hide HandOut;
    hide Closed;
    ProgressHere(x);
    match e
    case RequestPut(r) => SubmitKeeps(x, r);
    case Returned(id) => FinishKeeps(x, id);
    case CallerCancelled(id) => AbandonKeeps(x, id);
    case Exchanged(reply) =>
      if Accepts(x, reply) {
        if reply.Some? {
          StoreKeeps(x, reply.value);
          ServedKeeps(Store(x, reply.value));
          ProgressTransitive(x, Store(x, reply.value), y);
        } else {
          ServedKeeps(x);
        }
      }
    case Woken => HandOutKeeps(x);
    case TimedOut => PollingKeeps(x, false);
    case LeaseClosed => ClosedKeeps(x);
  }

  lemma ProgressHere(x: Line)
    ensures LineOk(x) ==> Progress(x, x)
  {
    if LineOk(x) { ProgressReflexive(x); }
  }

  function Opened(): Line {
    Line([], map[], map[], None, false, false, [], {}, [], map[])
  }

  predicate IsRun(xs: seq<Line>, es: seq<Event>) {
    && |xs| == |es| + 1 && xs[0] == Opened()
    && forall i :: 0 <= i < |es| ==> Step(xs[i], xs[i + 1], es[i])
  }

  lemma {:induction false} RunKeeps(xs: seq<Line>, es: seq<Event>, i: nat)
    requires IsRun(xs, es) && i <= |es|
    ensures LineOk(xs[i])
  {
    hide Step;
    if i > 0 {
      RunKeeps(xs, es, i - 1);
      StepKeeps(xs[i - 1], xs[i], es[i - 1]);
    }
  }

  lemma {:induction false} RunProgress(xs: seq<Line>, es: seq<Event>, i: nat, j: nat)
    requires IsRun(xs, es) && i <= j <= |es|
    ensures Progress(xs[i], xs[j])
    decreases j - i
  {
    hide Step;
    hide Progress;
    hide LineOk;
    if i == j {
      RunKeeps(xs, es, i);
      ProgressReflexive(xs[i]);
    } else {
      RunProgress(xs, es, i, j - 1);
      RunKeeps(xs, es, j - 1);
      StepKeeps(xs[j - 1], xs[j], es[j - 1]);
      ProgressTransitive(xs[i], xs[j - 1], xs[j]);
    }
  }

  /** The k-th request handed out is the k-th submitted; each but the active one has a reply that never changes. */
  lemma HandedInOrder(xs: seq<Line>, es: seq<Event>, i: nat, j: nat, k: nat)
    requires IsRun(xs, es) && i <= j <= |es| && k < |xs[i].handed|
    ensures k < |xs[i].submitted| && xs[i].handed[k] == xs[i].submitted[k]
    ensures k < |xs[j].handed| && xs[j].handed[k] == xs[i].handed[k]
    ensures var id := xs[i].handed[k].id;
            if id in xs[i].replies then id in xs[j].replies && xs[j].replies[id] == xs[i].replies[id]
            else xs[i].active == Some(xs[i].handed[k]) && k == |xs[i].handed| - 1
  {
    RunKeeps(xs, es, i);
    RunProgress(xs, es, i, j);
    var x := xs[i];
    hide IsRun;
    assert (x.handed + x.queue)[k] == x.handed[k];
    var last := |x.handed| - 1;
    assert (x.handed + x.queue)[last] == x.handed[last];
    if k < last { assert x.submitted[k].id != x.submitted[last].id; }
  }

  /** A request whose reply is not yet stored is the answer of every exchange that brings no reply to it. */
  lemma ServedAgain(xs: seq<Line>, es: seq<Event>, i: nat, j: nat, reply: Option<Reply>)
    requires IsRun(xs, es) && i <= j <= |es| && xs[i].active.Some? && xs[i].active.value.id !in xs[j].replies
    requires reply.Some? ==> reply.value.request != xs[i].active.value.id
    ensures Served(AfterReply(xs[j], reply)).1 == Serve(xs[i].active.value)
  {
    RunProgress(xs, es, i, j);
    hide IsRun;
  }

  /** A waiter completes at most once, with the stored reply or because the lease was closed. */
  lemma CompletedOnce(xs: seq<Line>, es: seq<Event>, i: nat, j: nat, w: Id)
    requires IsRun(xs, es) && i <= j <= |es| && w in xs[i].completed
    ensures w in xs[j].completed && xs[j].completed[w] == xs[i].completed[w] && w !in xs[j].waiters
    ensures xs[j].completed[w].Answered? ==> w in xs[j].replies && xs[j].replies[w] == xs[j].completed[w].reply
    ensures !xs[j].completed[w].Answered? ==> xs[j].closed
  {
    RunKeeps(xs, es, j);
    RunProgress(xs, es, i, j);
    hide IsRun;
  }

  // ---------------------------------------------------------------- the objects

  class LeaseExchange {
    const worker: Id
    const session: Id
    var requests: seq<Request>
    var replies: map<Id, Reply>
    var waiters: map<Id, Waiter>
    var activeRequest: Option<Request>
    var closed: bool
    ghost var polling: bool
    ghost var submitted: seq<Request>
    ghost var known: set<Id>
    ghost var handed: seq<Request>
    ghost var completed: map<Id, Waiter>

    ghost function State(): Line
      reads this
    {
      Line(requests, replies, waiters, activeRequest, closed, polling, submitted, known, handed, completed)
    }

    constructor (workerId: Id, sessionId: Id)
      ensures worker == workerId && session == sessionId && State() == Opened()
    {
      worker, session := workerId, sessionId;
      requests, replies, waiters, activeRequest, closed := [], map[], map[], None, false;
      polling, submitted, known, handed, completed := false, [], {}, [], map[];
    }

    method Put(r: Request)
      modifies this
      ensures State() == Submit(old(State()), r)
    {
      waiters := waiters[r.id := Pending];
      requests := requests + [r];
      submitted := submitted + [r];
      known := known + {r.id};
    }

    /** The caller's `await` ends and its waiter is dropped. */
    method Return(id: Id) returns (outcome: Waiter)
      requires id in waiters && !waiters[id].Pending?
      modifies this
      ensures State() == Finish(old(State()), id) && outcome == old(waiters[id])
    {
      outcome := waiters[id];
      completed := completed[id := outcome];
      waiters := waiters - {id};
    }

    method StoreReply(reply: Reply)
      modifies this
      ensures State() == Store(old(State()), reply)
    {
      replies := replies[reply.request := reply];
      if reply.request in waiters && waiters[reply.request].Pending? {
        waiters := waiters[reply.request := Answered(reply)];
      }
      if activeRequest.Some? && activeRequest.value.id == reply.request { activeRequest := None; }
    }

    /** Answers with the active request, else the queue's head, else waits on the queue. */
    method Next() returns (answer: Answer)
      modifies this
      ensures (State(), answer) == Served(old(State()))
    {
      if activeRequest.Some? { return Serve(activeRequest.value); }
      if requests != [] {
        answer := Take();
        return;
      }
      polling := true;
      return Wait;
    }

    /** `requests.get`, at once or when the wait ends. */
    method Take() returns (answer: Answer)
      requires requests != []
      modifies this
      ensures State() == HandOut(old(State())) && answer == Serve(old(requests)[0])
    {
      var head := requests[0];
      requests := requests[1..];
      activeRequest := Some(head);
      polling := false;
      handed := handed + [head];
      return Serve(head);
    }

    method Close()
      modifies this
      ensures State() == Closed(old(State()))
    {
      closed := true;
      var todo := set w | w in waiters && waiters[w].Pending?;
      while todo != {}
        invariant forall w :: w in todo ==> w in waiters && waiters[w].Pending?
        invariant waiters.Keys == old(waiters).Keys
        invariant forall w :: w in waiters ==>
          waiters[w] == if old(waiters[w]).Pending? && w !in todo then Refused else old(waiters[w])
        invariant State() == old(State()).(closed := true, waiters := waiters)
      {
        var w :| w in todo;
        waiters := waiters[w := Refused];
        todo := todo - {w};
      }
      assert waiters == Closed(old(State())).waiters;
    }
  }

  class Broker {
    const bodyLimit: nat
    var leases: map<Id, LeaseExchange>

    /** Each lease has its own exchange, open and in order. */
    ghost predicate Valid()
      reads this, leases.Values
    {
      && (forall l :: l in leases ==> leases[l] in leases.Values && LineOk(leases[l].State()) && !leases[l].closed)
      && (forall l, m :: l in leases && m in leases && leases[l] == leases[m] ==> l == m)
    }

    constructor (limit: nat)
      ensures Valid() && leases == map[] && bodyLimit == limit
    {
      bodyLimit := limit;
      leases := map[];
    }

    method Register(lease: Id, worker: Id, session: Id) returns (result: Result<(), Error>)
      requires Valid()
      modifies this
      ensures Valid()
      ensures if lease in old(leases) then result == Failure(AlreadyRegistered) && leases == old(leases)
              else result.Success? && lease in leases && leases == old(leases)[lease := leases[lease]]
                   && fresh(leases[lease]) && leases[lease].State() == Opened()
    {
      hide LineOk;
      if lease in leases { return Failure(AlreadyRegistered); }
      OpenedOk();
      var exchange := new LeaseExchange(worker, session);
      leases := leases[lease := exchange];
      return Success(());
    }

    method Close(lease: Id)
      requires Valid()
      modifies this, leases.Values
      ensures Valid() && leases == old(leases) - {lease}
      ensures lease in old(leases) ==> old(leases)[lease].State() == Closed(old(leases[lease].State()))
      ensures forall l :: l in leases ==> leases[l].State() == old(leases[l].State())
    {
      if lease !in leases { return; }
      var exchange := leases[lease];
      assert exchange in leases.Values;
      leases := leases - {lease};
      exchange.Close();
    }

    /** The synchronous part of `request`; the caller then waits on its waiter. */
    method Request(lease: Id, r: Request) returns (result: Result<(), Error>)
      requires Valid()
      requires lease in leases ==> r.id !in leases[lease].known && r.id !in leases[lease].replies
      modifies leases.Values
      ensures Valid() && leases == old(leases)
      ensures if |r.body| > bodyLimit then result == Failure(BodyTooLarge)
              else if lease !in leases then result == Failure(Error.LeaseClosed)
              else result.Success? && leases[lease].State() == Submit(old(leases[lease].State()), r)
      ensures forall l :: l in leases && (l != lease || result.Failure?) ==> leases[l].State() == old(leases[l].State())
    {
      hide LineOk;
      hide Submit;
      if |r.body| > bodyLimit { return Failure(BodyTooLarge); }
      if lease !in leases || leases[lease].closed { return Failure(Error.LeaseClosed); }
      var exchange := leases[lease];
      assert exchange in leases.Values;
      SubmitKeeps(exchange.State(), r);
      assert !Submit(exchange.State(), r).closed by { SubmitOpen(exchange.State(), r); }
      exchange.Put(r);
      return Success(());
    }

    /** `exchange` up to where it may wait on the queue. */
    method Exchange(lease: Id, worker: Id, session: Id, reply: Option<Reply>) returns (result: Result<Answer, Error>)
      requires Valid()
      modifies leases.Values
      ensures Valid() && leases == old(leases)
      ensures if lease !in leases then result == Success(Stop)
              else if (leases[lease].worker, leases[lease].session) != (worker, session) then result == Failure(WrongSession)
              else if reply.Some? && |reply.value.body| > bodyLimit then result == Failure(BodyTooLarge)
              else if !Accepts(old(leases[lease].State()), reply) then result == Failure(DifferentReply)
              else result.Success?
                   && (leases[lease].State(), result.value) == Served(AfterReply(old(leases[lease].State()), reply))
      ensures forall l :: l in leases && (l != lease || result.Failure?) ==> leases[l].State() == old(leases[l].State())
    {
      hide LineOk;
      hide Progress;
      hide Store;
      hide Served;
      if lease !in leases { return Success(Stop); }
      var exchange := leases[lease];
      assert exchange in leases.Values;
      if exchange.worker != worker || exchange.session != session { return Failure(WrongSession); }
      ghost var before := exchange.State();
      if reply.Some? {
        if |reply.value.body| > bodyLimit { return Failure(BodyTooLarge); }
        if reply.value.request in exchange.replies && exchange.replies[reply.value.request] != reply.value {
          return Failure(DifferentReply);
        }
        StoreKeeps(before, reply.value);
        exchange.StoreReply(reply.value);
      }
      ghost var stored := exchange.State();
      assert LineOk(stored) && stored == AfterReply(before, reply);
      ServedKeeps(stored);
      ServedOpen(before, reply);
      var answer := exchange.Next();
      return Success(answer);
    }
  }

  lemma OpenedOk()
    ensures LineOk(Opened()) && !Opened().closed
  {
  }

  lemma SubmitOpen(x: Line, r: Request)
    ensures Submit(x, r).closed == x.closed
  {
  }

  lemma ServedOpen(x: Line, reply: Option<Reply>)
    ensures AfterReply(x, reply).closed == x.closed && Served(AfterReply(x, reply)).0.closed == x.closed
  {
  }
}
