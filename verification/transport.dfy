/** The JSON-RPC transport: requests wait in a table that responses and closing empty. The steps
    are those the lock makes atomic; between them other tasks may run in any order. */
module Transports {
  import opened Wrappers
  import opened Json

  datatype RpcError =
    | Remote(remoteCode: int, message: string, data: Option<Value>)
    | Io(reason: string)
    | Malformed(detail: string)
    | Closed

  datatype Reply = Success(value: Value) | Failed(error: RpcError)

  /** Where the task of one request is. */
  datatype Call = Allocated | Registered | Awaiting | Returned(reply: Reply)

  /** `pending` is the table; a reply taken from it is `sending` until it is in the channel. */
  datatype Net = Net(
    nextId: nat,
    calls: map<nat, Call>,
    pending: set<nat>,
    sending: map<nat, Reply>,
    delivered: map<nat, Reply>,
    closed: Option<RpcError>)

  datatype Action =
    | Start
    | Register(id: nat)
    | Written(id: nat)
    | WriteFailed(id: nat, error: RpcError)
    | Dispatch(message: Value)
    | Send(id: nat)
    | Close(error: RpcError)
    | Receive(id: nat)

  const EMPTY := Net(1, map[], {}, map[], map[], None)

  // ----- incoming messages

  predicate IsEvent(message: Value) {
    GetString(message, "method").Some?
  }

  function UnsignedId(message: Value): Option<nat> {
    match Get(message, "id")
    case Some(Number(n)) => if 0 <= n < 0x1_0000_0000_0000_0000 then Some(n) else None
    case _ => None
  }

  /** The request a message responds to, if it is a response. */
  function RespondsTo(message: Value): Option<nat> {
    if IsEvent(message) then None else UnsignedId(message)
  }

  function RemoteCode(error: Value): int {
    match Get(error, "code")
    case Some(Number(n)) =>
      if -0x8000_0000_0000_0000 <= n < 0x8000_0000_0000_0000 then n else -32603
    case _ => -32603
  }

  function ReplyOf(message: Value): Reply {
    match (Get(message, "result"), Get(message, "error"))
    case (Some(value), _) => Success(value)
    case (None, Some(error)) =>
      Failed(Remote(RemoteCode(error),
        if GetString(error, "message").Some? then GetString(error, "message").value
        else "unknown remote error",
        Get(error, "data")))
    case (None, None) => Failed(Malformed("response has neither result nor error"))
  }

  // ----- the steps

  predicate At(n: Net, id: nat, call: Call) {
    id in n.calls && n.calls[id] == call
  }

  predicate Enabled(n: Net, a: Action) {
    match a
    case Start => true
    case Register(id) => At(n, id, Allocated)
    case Written(id) => At(n, id, Registered)
    case WriteFailed(id, _) => At(n, id, Registered)
    case Dispatch(_) => true
    case Send(id) => id in n.sending
    case Close(_) => true
    case Receive(id) => At(n, id, Awaiting) && id !in n.pending && id !in n.sending
  }

  function Answer(pending: set<nat>, reply: Reply): map<nat, Reply> {
    map id | id in pending :: reply
  }

  function Next(n: Net, a: Action): Net
    requires Enabled(n, a)
  {
    match a
    case Start => n.(nextId := n.nextId + 1, calls := n.calls[n.nextId := Allocated])
    case Register(id) =>
      if n.closed.Some? then n.(calls := n.calls[id := Returned(Failed(n.closed.value))])
      else n.(calls := n.calls[id := Registered], pending := n.pending + {id})
    case Written(id) => n.(calls := n.calls[id := Awaiting])
    case WriteFailed(id, error) =>
      n.(calls := n.calls[id := Returned(Failed(error))], pending := n.pending - {id})
    case Dispatch(message) =>
      var id := RespondsTo(message);
      if id.Some? && id.value in n.pending then
        n.(pending := n.pending - {id.value}, sending := n.sending[id.value := ReplyOf(message)])
      else n
    case Send(id) =>
      n.(sending := n.sending - {id}, delivered := n.delivered[id := n.sending[id]])
    case Close(error) =>
      n.(closed := if n.closed.Some? then n.closed else Some(error),
         sending := n.sending + Answer(n.pending, Failed(error)),
         pending := {})
    case Receive(id) =>
      var reply := if id in n.delivered then n.delivered[id] else Failed(Closed);
      n.(calls := n.calls[id := Returned(reply)])
  }

  // ----- the invariant

  /** The request waits for its reply. */
  predicate Waits(n: Net, id: nat) {
    At(n, id, Registered) || At(n, id, Awaiting)
  }

  ghost predicate Inv(n: Net) {
    && 1 <= n.nextId
    && (forall id | id in n.calls :: 1 <= id < n.nextId)
    && (forall id | id in n.pending :: Waits(n, id))
    && (forall id | id in n.sending || id in n.delivered :: id in n.calls && n.calls[id] != Allocated)
    && (forall id | id in n.pending :: id !in n.sending && id !in n.delivered)
    && (forall id | id in n.sending :: id !in n.delivered)
    && (forall id | Waits(n, id) :: id in n.pending || id in n.sending || id in n.delivered)
    && (n.closed.Some? ==> n.pending == {})
  }

  lemma RequestHolds(n: Net, a: Action)
    requires Inv(n) && Enabled(n, a) && (a.Start? || a.Register? || a.Written?)
    ensures Inv(Next(n, a))
  {
  }

  lemma ReturnHolds(n: Net, a: Action)
    requires Inv(n) && Enabled(n, a) && (a.WriteFailed? || a.Receive? || a.Send?)
    ensures Inv(Next(n, a))
  {
  }

  lemma AnswerHolds(n: Net, a: Action)
    requires Inv(n) && Enabled(n, a) && (a.Dispatch? || a.Close?)
    ensures Inv(Next(n, a))
  {
    hide ReplyOf, RespondsTo;
  }

  lemma InvHolds(n: Net, a: Action)
    requires Inv(n) && Enabled(n, a)
    ensures Inv(Next(n, a))
  {
    hide Inv, Enabled, Next;
    if a.Start? || a.Register? || a.Written? {
      RequestHolds(n, a);
    } else if a.Dispatch? || a.Close? {
      AnswerHolds(n, a);
    } else {
      ReturnHolds(n, a);
    }
  }

  /** A request that awaits its reply finds it in the channel: the sender is never dropped. */
  lemma ReplyIsNeverLost(n: Net, id: nat)
    requires Inv(n) && Enabled(n, Receive(id))
    ensures id in n.delivered
  {
  }

  /** Once the transport is closed no request is left waiting: its reply is in its hands or on its
      way, and a request that comes later returns at once with the reason. */
  lemma NothingWaitsAfterClose(n: Net, id: nat)
    requires Inv(n) && n.closed.Some?
    ensures Waits(n, id) ==> id in n.sending || id in n.delivered
    ensures At(n, id, Awaiting) ==> Enabled(n, Send(id)) || Enabled(n, Receive(id))
    ensures At(n, id, Allocated) ==>
      At(Next(n, Register(id)), id, Returned(Failed(n.closed.value)))
  {
  }

  // ----- any interleaving

  datatype Trace = Trace(nets: seq<Net>, actions: seq<Action>)

  predicate HasShape(t: Trace) {
    |t.nets| == |t.actions| + 1
  }

  ghost predicate IsTrace(t: Trace) {
    && HasShape(t)
    && t.nets[0] == EMPTY
    && forall i | 0 <= i < |t.actions| ::
      Enabled(t.nets[i], t.actions[i]) && Next(t.nets[i], t.actions[i]) == t.nets[i + 1]
  }

  lemma {:induction false} TraceKeeps(t: Trace, n: nat)
    requires IsTrace(t) && n < |t.nets|
    ensures Inv(t.nets[n])
  {
    hide Inv, Next, Enabled;
    if n == 0 {
      assert Inv(EMPTY) by { EmptyHolds(); }
    } else {
      TraceKeeps(t, n - 1);
      InvHolds(t.nets[n - 1], t.actions[n - 1]);
    }
  }

  lemma EmptyHolds()
    ensures Inv(EMPTY)
  {
  }

  /** Step `k` took the request from the table and gave it this reply: its own response, or the
      error of a close. */
  predicate AnsweredBy(t: Trace, k: nat, id: nat, reply: Reply)
    requires HasShape(t)
  {
    && k < |t.actions|
    && id in t.nets[k].pending
    && match t.actions[k]
      case Dispatch(message) => RespondsTo(message) == Some(id) && ReplyOf(message) == reply
      case Close(error) => reply == Failed(error)
      case _ => false
  }

  /** Every way in which a request can have returned. */
  predicate ReturnedBecause(t: Trace, k: nat, id: nat, reply: Reply)
    requires HasShape(t)
  {
    || AnsweredBy(t, k, id, reply)
    || (k < |t.actions| && reply.Failed? && t.actions[k] == WriteFailed(id, reply.error))
    || (k < |t.actions| && t.actions[k] == Register(id) && reply.Failed?
        && t.nets[k].closed == Some(reply.error))
  }

  /** A reply on its way, or in the channel, comes from the step that took the request. */
  lemma {:induction false} ReplyHasSource(t: Trace, n: nat, id: nat, reply: Reply) returns (k: nat)
    requires IsTrace(t) && n < |t.nets|
    requires (id in t.nets[n].sending && t.nets[n].sending[id] == reply)
      || (id in t.nets[n].delivered && t.nets[n].delivered[id] == reply)
    ensures k < n && AnsweredBy(t, k, id, reply)
  {
    hide Inv, ReplyOf, RespondsTo;
    assert n > 0;
    var m, before, after := n - 1, t.nets[n - 1], t.nets[n];
    assert Enabled(before, t.actions[m]) && Next(before, t.actions[m]) == after;
    TraceKeeps(t, m);
    if || (id in before.sending && before.sending[id] == reply)
       || (id in before.delivered && before.delivered[id] == reply)
    {
      k := ReplyHasSource(t, m, id, reply);
    } else {
      k := m;
    }
  }

  /** A request returns only with its own response, the error of a close, or the error of its own
      write. */
  lemma {:induction false} ReturnHasCause(t: Trace, n: nat, id: nat, reply: Reply) returns (k: nat)
    requires IsTrace(t) && n < |t.nets| && At(t.nets[n], id, Returned(reply))
    ensures k < n && ReturnedBecause(t, k, id, reply)
  {
    hide Inv, ReplyOf, RespondsTo, AnsweredBy;
    assert n > 0;
    var m, before, action := n - 1, t.nets[n - 1], t.actions[n - 1];
    assert Enabled(before, action) && Next(before, action) == t.nets[n];
    if At(before, id, Returned(reply)) {
      k := ReturnHasCause(t, m, id, reply);
    } else if action == Receive(id) {
      TraceKeeps(t, m);
      ReplyIsNeverLost(before, id);
      k := ReplyHasSource(t, m, id, reply);
    } else {
      k := m;
    }
  }

  /** A request that is out of the table stays out, and one that has returned stays so. */
  lemma StepKeepsGone(n: Net, a: Action, id: nat)
    requires Inv(n) && Enabled(n, a) && id in n.calls && n.calls[id] != Allocated
    ensures var next := Next(n, a);
      && id in next.calls
      && next.calls[id] != Allocated
      && (id !in n.pending ==> id !in next.pending)
      && (n.calls[id].Returned? ==> next.calls[id] == n.calls[id])
  {
    hide ReplyOf, RespondsTo, Answer;
    FreshIdIsUnused(n);
  }

  lemma TraceStep(t: Trace, n: nat)
    requires IsTrace(t) && n < |t.actions|
    ensures Inv(t.nets[n]) && Enabled(t.nets[n], t.actions[n])
    ensures Next(t.nets[n], t.actions[n]) == t.nets[n + 1]
  {
    hide Inv, Enabled, Next;
    TraceKeeps(t, n);
  }

  /** A request returns at most once: once returned, it stays so, with the same reply. */
  lemma {:induction false} ReturnsOnce(t: Trace, i: nat, j: nat, id: nat)
    requires IsTrace(t) && i <= j < |t.nets|
    requires id in t.nets[i].calls && t.nets[i].calls[id].Returned?
    ensures id in t.nets[j].calls && t.nets[j].calls[id] == t.nets[i].calls[id]
    decreases j
  {
    hide Inv, Enabled, Next;
    if i < j {
      ReturnsOnce(t, i, j - 1, id);
      TraceStep(t, j - 1);
      StepKeepsGone(t.nets[j - 1], t.actions[j - 1], id);
    }
  }

  lemma FreshIdIsUnused(n: Net)
    requires Inv(n)
    ensures n.nextId !in n.calls
  {
  }

  /** The first reason for closing is kept, and from then on nothing is pending. */
  lemma {:induction false} FirstReasonIsKept(t: Trace, i: nat, j: nat)
    requires IsTrace(t) && i <= j < |t.nets| && t.nets[i].closed.Some?
    ensures t.nets[j].closed == t.nets[i].closed && t.nets[j].pending == {}
    decreases j
  {
    hide ReplyOf, RespondsTo;
    TraceKeeps(t, j);
    if i < j {
      FirstReasonIsKept(t, i, j - 1);
      assert Enabled(t.nets[j - 1], t.actions[j - 1])
          && Next(t.nets[j - 1], t.actions[j - 1]) == t.nets[j];
    }
  }

  lemma {:induction false} NeverPendingAgain(t: Trace, i: nat, j: nat, id: nat)
    requires IsTrace(t) && i <= j < |t.nets|
    requires id in t.nets[i].calls && t.nets[i].calls[id] != Allocated && id !in t.nets[i].pending
    ensures id in t.nets[j].calls && t.nets[j].calls[id] != Allocated && id !in t.nets[j].pending
    decreases j
  {
    hide Inv, Enabled, Next;
    if i < j {
      NeverPendingAgain(t, i, j - 1, id);
      TraceStep(t, j - 1);
      StepKeepsGone(t.nets[j - 1], t.actions[j - 1], id);
    }
  }

  /** At most one step answers a request, so a second response with its id finds nothing. */
  lemma AnsweredOnce(t: Trace, i: nat, j: nat, id: nat, reply: Reply, other: Reply)
    requires IsTrace(t) && AnsweredBy(t, i, id, reply) && AnsweredBy(t, j, id, other)
    ensures i == j && reply == other
  {
    hide Inv, ReplyOf, RespondsTo;
    if i < j {
      NotPendingAfter(t, i, id, reply);
      NeverPendingAgain(t, i + 1, j, id);
    } else if j < i {
      NotPendingAfter(t, j, id, other);
      NeverPendingAgain(t, j + 1, i, id);
    }
  }

  lemma NotPendingAfter(t: Trace, i: nat, id: nat, reply: Reply)
    requires IsTrace(t) && AnsweredBy(t, i, id, reply)
    ensures var after := t.nets[i + 1];
      id in after.calls && after.calls[id] != Allocated && id !in after.pending
  {
    hide ReplyOf, RespondsTo;
    TraceKeeps(t, i);
    assert Waits(t.nets[i], id);
    assert Enabled(t.nets[i], t.actions[i]) && Next(t.nets[i], t.actions[i]) == t.nets[i + 1];
  }

  // ----- what a request is told

  /** The message is a response to this request. */
  predicate Responds(message: Value, id: nat) {
    && GetString(message, "method").None?
    && Get(message, "id") == Some(Number(id))
    && id < 0x1_0000_0000_0000_0000
  }

  predicate HasCode(error: Value) {
    exists n | -0x8000_0000_0000_0000 <= n < 0x8000_0000_0000_0000 :: Get(error, "code") == Some(Number(n))
  }

  /** What a response says: its result, whatever that is; else its error, field by field; and only
      without both that it is malformed. */
  predicate Says(message: Value, reply: Reply) {
    var result, error := Get(message, "result"), Get(message, "error");
    match reply
    case Success(value) => result == Some(value)
    case Failed(Remote(code, text, data)) =>
      && result.None?
      && error.Some?
      && (if HasCode(error.value) then Get(error.value, "code") == Some(Number(code)) else code == -32603)
      && (if GetString(error.value, "message").Some? then Get(error.value, "message") == Some(String(text))
          else text == "unknown remote error")
      && Get(error.value, "data") == data
    case Failed(Malformed(detail)) =>
      result.None? && error.None? && detail == "response has neither result nor error"
    case Failed(_) => false
  }

  lemma ReplySays(message: Value, reply: Reply)
    ensures ReplyOf(message) == reply <==> Says(message, reply)
  {
  }

  lemma RespondsToMeans(message: Value, id: nat)
    ensures RespondsTo(message) == Some(id) <==> Responds(message, id)
  {
  }

  /** A request is told what the one response with its id says that found it waiting, or the error of a
      close or of its own write. */
  lemma ReturnIsTold(t: Trace, n: nat, id: nat, reply: Reply) returns (k: nat)
    requires IsTrace(t) && n < |t.nets| && At(t.nets[n], id, Returned(reply))
    ensures k < n && match t.actions[k]
      case Dispatch(message) => id in t.nets[k].pending && Responds(message, id) && Says(message, reply)
      case Close(error) => id in t.nets[k].pending && reply == Failed(error)
      case WriteFailed(i, error) => i == id && reply == Failed(error)
      case Register(i) => i == id && t.nets[k].closed.Some? && reply == Failed(t.nets[k].closed.value)
      case _ => false
  {
    hide Inv, ReplyOf, RespondsTo, Says, Responds;
    k := ReturnHasCause(t, n, id, reply);
    if t.actions[k].Dispatch? {
      ReplySays(t.actions[k].message, reply);
      RespondsToMeans(t.actions[k].message, id);
    }
  }

  /** And the other way round: when a response finds its request waiting, what it says is what the
      request returns, unless its write fails after all. */
  lemma ResponseIsReturned(t: Trace, k: nat, n: nat, id: nat, reply: Reply, other: Reply)
    requires IsTrace(t) && k < n < |t.nets| && t.actions[k].Dispatch? && id in t.nets[k].pending
    requires Responds(t.actions[k].message, id) && Says(t.actions[k].message, reply)
    requires At(t.nets[n], id, Returned(other))
    ensures other == reply
      || (other.Failed? && exists m | k < m < n :: t.actions[m] == WriteFailed(id, other.error))
  {
    hide Inv, ReplyOf, RespondsTo, Says, Responds, Next, Enabled;
    ReplySays(t.actions[k].message, reply);
    RespondsToMeans(t.actions[k].message, id);
    assert AnsweredBy(t, k, id, reply);
    var j := ReturnHasCause(t, n, id, other);
    if AnsweredBy(t, j, id, other) {
      AnsweredOnce(t, k, j, id, reply, other);
    } else {
      OwnStepComesLater(t, k, j, id, reply);
    }
  }

  /** Once a request is answered, it registers no more, and its write did not fail before. */
  lemma OwnStepComesLater(t: Trace, k: nat, j: nat, id: nat, reply: Reply)
    requires IsTrace(t) && AnsweredBy(t, k, id, reply) && j < |t.actions|
    requires t.actions[j] == Register(id) || (t.actions[j].WriteFailed? && t.actions[j].id == id)
    requires t.actions[j] == Register(id) ==> t.nets[j].closed.Some?
    ensures k < j && t.actions[j].WriteFailed?
  {
    hide Inv, ReplyOf, RespondsTo;
    TraceStep(t, j);
    if j < k {
      assert id in t.nets[j + 1].calls && t.nets[j + 1].calls[id] != Allocated;
      assert id !in t.nets[j + 1].pending by { GoneAfterOwnStep(t, j, id); }
      NeverPendingAgain(t, j + 1, k, id);
    } else if k < j {
      NotPendingAfter(t, k, id, reply);
      NeverPendingAgain(t, k + 1, j, id);
    }
  }

  lemma GoneAfterOwnStep(t: Trace, j: nat, id: nat)
    requires IsTrace(t) && j < |t.actions|
    requires t.actions[j] == Register(id) || (t.actions[j].WriteFailed? && t.actions[j].id == id)
    requires t.actions[j] == Register(id) ==> t.nets[j].closed.Some?
    ensures id !in t.nets[j + 1].pending
  {
    hide ReplyOf, RespondsTo;
    TraceStep(t, j);
  }

  // ----- the shared object

  /** Closing, when nothing comes between taking the table and sending to each request in it. */
  function FailedAll(n: Net, error: RpcError): Net {
    n.(closed := if n.closed.Some? then n.closed else Some(error),
       pending := {},
       delivered := n.delivered + Answer(n.pending, Failed(error)))
  }

  lemma AnswerExtends(base: map<nat, Reply>, done: set<nat>, id: nat, reply: Reply)
    ensures base + Answer(done + {id}, reply) == (base + Answer(done, reply))[id := reply]
    ensures base + Answer({}, reply) == base
  {
  }

  /** The transport while `left` is still to be sent. */
  function Partly(n: Net, error: RpcError, left: set<nat>): Net {
    n.(closed := if n.closed.Some? then n.closed else Some(error),
       pending := {},
       sending := n.sending + Answer(left, Failed(error)),
       delivered := n.delivered + Answer(n.pending - left, Failed(error)))
  }

  /** `FailedAll` is the close followed by one send for each request it took, in any order. */
  lemma FailedAllIsClose(n: Net, error: RpcError)
    ensures Partly(n, error, n.pending) == Next(n, Close(error))
    ensures Partly(n, error, {}) == FailedAll(n, error)
  {
    hide Answer;
    AnswerExtends(n.delivered, {}, 0, Failed(error));
    AnswerExtends(n.sending, {}, 0, Failed(error));
    assert n.pending - n.pending == {} && n.pending - {} == n.pending;
  }

  lemma PartlySends(n: Net, error: RpcError, left: set<nat>, id: nat)
    requires Inv(n) && left <= n.pending && id in left
    ensures Enabled(Partly(n, error, left), Send(id))
    ensures Next(Partly(n, error, left), Send(id)) == Partly(n, error, left - {id})
  {
    hide Answer;
    var reply := Failed(error);
    AnswerHas(left, id, reply);
    var done := n.pending - left;
    assert n.pending - (left - {id}) == done + {id};
    AnswerExtends(n.delivered, done, id, reply);
    AnswerShrinks(n.sending, left, id, reply);
  }

  lemma AnswerHas(left: set<nat>, id: nat, reply: Reply)
    requires id in left
    ensures id in Answer(left, reply) && Answer(left, reply)[id] == reply
  {
  }

  lemma AnswerShrinks(base: map<nat, Reply>, left: set<nat>, id: nat, reply: Reply)
    requires id !in base
    ensures (base + Answer(left, reply)) - {id} == base + Answer(left - {id}, reply)
  {
  }

  /** What the tasks share. Each method is one locked section, except that `FailPending` goes on to
      send what it took. */
  class Shared {
    var nextId: nat
    var calls: map<nat, Call>
    var pending: set<nat>
    var sending: map<nat, Reply>
    var delivered: map<nat, Reply>
    var closed: Option<RpcError>

    function View(): Net
      reads this
    {
      Net(nextId, calls, pending, sending, delivered, closed)
    }

    constructor ()
      ensures View() == EMPTY
    {
      nextId, calls, pending := 1, map[], {};
      sending, delivered, closed := map[], map[], None;
    }

    method FetchId() returns (id: nat)
      modifies this`nextId, this`calls
      ensures View() == Next(old(View()), Start) && id == old(nextId)
    {
      id := nextId;
      nextId := nextId + 1;
      calls := calls[id := Allocated];
    }

    /** Enters the request in the table, unless the transport is closed. */
    method RegisterRequest(id: nat) returns (refused: Option<RpcError>)
      requires At(View(), id, Allocated)
      modifies this`calls, this`pending
      ensures View() == Next(old(View()), Register(id))
      ensures refused == closed
    {
      refused := closed;
      if closed.Some? {
        calls := calls[id := Returned(Failed(closed.value))];
      } else {
        pending := pending + {id};
        calls := calls[id := Registered];
      }
    }

    /** `dispatch_message`, as far as the lock goes. */
    method DispatchMessage(message: Value)
      modifies this`pending, this`sending
      ensures View() == Next(old(View()), Dispatch(message))
    {
      hide ReplyOf;
      if IsEvent(message) {
        return;
      }
      var id := UnsignedId(message);
      if id.None? || id.value !in pending {
        return;
      }
      pending := pending - {id.value};
      sending := sending[id.value := ReplyOf(message)];
    }

    /** `fail_pending`: the table is taken whole, and then each sender gets the error. */
    method FailPending(error: RpcError)
      modifies this`closed, this`pending, this`delivered
      ensures View() == FailedAll(old(View()), error)
    {
      hide Answer, Inv;
      if closed.None? {
        closed := Some(error);
      }
      AnswerExtends(delivered, {}, 0, Failed(error));
      var taken := pending;
      pending := {};
      var left := taken;
      assert taken - left == {};
      while left != {}
        invariant left <= taken == old(pending)
        invariant pending == {} && closed == FailedAll(old(View()), error).closed
        invariant delivered == old(delivered) + Answer(taken - left, Failed(error))
        decreases |left|
      {
        var id :| id in left;
        AnswerExtends(old(delivered), taken - left, id, Failed(error));
        assert taken - (left - {id}) == taken - left + {id};
        delivered := delivered[id := Failed(error)];
        left := left - {id};
      }
      assert taken - left == taken;
    }
  }
}
