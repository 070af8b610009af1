/** The Ledger handler's one-slot protocol, one function per entry point and callback.

    A request is a number; its result is answered by appending to `answers`. `calls` are the
    SDK calls this handler made that have not called back yet, and `task.awaits` the one the
    exchange task waits for: the handler's own flags must agree with them. */
module LedgerModel {
  import opened Common

  datatype Reply = Done | Failed | Busy | NotConnected | Invalid | Cancelled | Disconnected

  datatype Answer = Answer(request: nat, reply: Reply)

  /** A Bluetooth link, and the request that brought it up: a connect, or an app switch
      reconnecting on its own. */
  datatype Link = Link(source: nat, reconnected: bool)

  /** An APDU handed to the device: for which request, after how many answers, on which link. */
  datatype Send = Send(request: nat, after: nat, link: Option<Link>)

  datatype Call = ConnectCall(request: nat) | DisconnectCall | DrainCall | CloseCall

  datatype Await = Ready | Apdu | Reconnect

  datatype Kind = CurrentApp | OpenZcashApp | ExchangeUfvk | ExchangeApdus

  datatype Task = Task(request: nat, kind: Kind, generation: nat, preparation: nat, cancelled: bool, awaits: Await)

  datatype Handler = Handler(
    closing: bool,
    connected: bool,
    connectionGeneration: nat,
    task: Option<Task>,
    result: Option<nat>,
    generation: nat,
    recovers: bool,
    preparation: nat,
    connectPending: bool,
    needsDisconnect: bool,
    callbackPending: bool,
    callbackResult: Option<nat>,
    closePending: bool,
    retryScheduled: bool,
    retryUsed: bool,
    awaitsTask: bool,
    queryRequiresDisconnect: bool,
    timers: set<nat>,
    permission: Option<nat>,
    calls: seq<Call>)

  datatype Owner = Free | Mine | Other

  /** What one handler sees: itself, who owns the transport, the link, and what was answered
      and sent by anyone so far. */
  datatype Local = Local(h: Handler, owner: Owner, link: Option<Link>, answers: seq<Answer>, sends: seq<Send>)

  function Say(l: Local, request: nat, reply: Reply): Local {
    l.(answers := l.answers + [Answer(request, reply)])
  }

  function SayIfAny(l: Local, request: Option<nat>, reply: Reply): Local {
    if request.Some? then Say(l, request.value, reply) else l
  }

  // ---------- closing ----------

  function FinishClosing(l: Local): Local {
    if !l.owner.Mine? || l.h.task.Some? || l.h.callbackPending || l.h.closePending then l
    else if l.link.None? then l.(owner := Free)
    else l.(h := l.h.(closePending := true, calls := l.h.calls + [CloseCall]))
  }

  function ScheduleCloseRetry(l: Local): Local {
    if l.h.closing && !l.h.retryScheduled && l.owner.Mine? then l.(h := l.h.(retryScheduled := true)) else l
  }

  function RetryFires(l: Local): Local {
    if l.h.retryScheduled then FinishClosing(l.(h := l.h.(retryScheduled := false))) else l
  }

  function CloseDone(l: Local, failed: bool): Local {
    var l1 := l.(h := l.h.(closePending := false));
    if failed && l1.link.Some? then
      if l1.h.retryUsed then l1 else ScheduleCloseRetry(l1.(h := l1.h.(retryUsed := true)))
    else if l1.owner.Mine? then l1.(owner := Free)
    else l1
  }

  function FinishPermission(l: Local): Local {
    SayIfAny(l.(h := l.h.(permission := None)), l.h.permission, Done)
  }

  function DropCallback(l: Local, reply: Reply): Local {
    SayIfAny(l.(h := l.h.(callbackResult := None)), l.h.callbackResult, reply)
  }

  function Close(l: Local): Local {
    if l.h.closing then l
    else
      var l1 := FinishPermission(l.(h := l.h.(closing := true)));
      if !l1.owner.Mine? then l1
      else
        var l2 := DropCallback(Cancel(l1, Cancelled, true), Cancelled);
        var l3 := l2.(h := l2.h.(connected := false));
        if l3.h.task.None? then FinishClosing(l3) else l3.(h := l3.h.(awaitsTask := true))
  }

  /** The task that `close` waits for has ended. */
  function TaskAwaited(l: Local): Local {
    if l.h.awaitsTask && l.h.task.None? then FinishClosing(l.(h := l.h.(awaitsTask := false))) else l
  }

  // ---------- the transport ----------

  /** May this request use the transport? When not, it has been answered. */
  function TransportFor(l: Local, request: nat): (Local, bool) {
    if l.h.closing || l.owner.Other? then (Say(l, request, Busy), false)
    else
      var l1 := l.(owner := Mine);
      if l1.h.needsDisconnect then (Say(Drain(l1), request, Busy), false) else (l1, true)
  }

  function Drain(l: Local): Local {
    if l.h.callbackPending then l
    else if l.link.None? then l.(h := l.h.(needsDisconnect := false))
    else l.(h := l.h.(callbackPending := true, calls := l.h.calls + [DrainCall]))
  }

  function DrainDone(l: Local, failed: bool): Local {
    var l1 := l.(h := l.h.(callbackPending := false, needsDisconnect := failed && l.link.Some?));
    if l1.h.closing then FinishClosing(l1) else l1
  }

  function Connect(l: Local, request: nat, valid: bool): Local {
    if l.h.permission.Some? || l.h.task.Some? || l.h.callbackPending then Say(l, request, Busy)
    else
      var (l1, granted) := TransportFor(l, request);
      if !granted then l1
      else if !valid then Say(l1, request, NotConnected)
      else
        l1.(h := l1.h.(connectPending := true, callbackPending := true, callbackResult := Some(request),
                       connectionGeneration := l1.h.connectionGeneration + 1,
                       calls := l1.h.calls + [ConnectCall(request)]))
  }

  function FinishConnect(l: Local, failed: bool): Local {
    if !l.h.connectPending then l
    else
      var result := l.h.callbackResult;
      var l1 := l.(h := l.h.(connectPending := false, callbackPending := false, callbackResult := None));
      if l1.h.closing then FinishClosing(l1)
      else if l1.h.needsDisconnect then Drain(l1)
      else if failed then SayIfAny(l1, result, Failed)
      else SayIfAny(l1.(h := l1.h.(connected := true)), result, Done)
  }

  function Disconnect(l: Local, request: nat): Local {
    var (l1, granted) := TransportFor(l, request);
    if !granted then l1 else DisconnectLink(Cancel(l1, Disconnected, true), request)
  }

  /** The end of `disconnect`, once the exchange is cancelled: busy while the SDK is. */
  function DisconnectLink(l: Local, request: nat): Local {
    if l.h.task.Some? || l.h.callbackPending then Say(l, request, Busy)
    else
      var l1 := l.(h := l.h.(connected := false));
      if l1.link.None? then Say(l1, request, Done)
      else
        l1.(h := l1.h.(callbackPending := true, callbackResult := Some(request), calls := l1.h.calls + [DisconnectCall]))
  }

  function FinishDisconnect(l: Local, failed: bool): Local {
    if !l.h.callbackPending then l
    else
      var result := l.h.callbackResult;
      var l1 := l.(h := l.h.(callbackPending := false, callbackResult := None));
      if l1.h.closing then FinishClosing(l1) else SayIfAny(l1, result, if failed then Failed else Done)
  }

  // ---------- exchanges ----------

  /** Answers whatever waits, and invalidates the work behind it. */
  function Cancel(l: Local, reply: Reply, cancelPreparation: bool): Local {
    CancelExchange(if cancelPreparation then CancelConnect(l, reply) else l, reply)
  }

  function CancelExchange(l: Local, reply: Reply): Local {
    if l.h.result.None? then l
    else
      var task := if l.h.task.Some? then Some(l.h.task.value.(cancelled := true)) else None;
      Say(l.(h := l.h.(generation := l.h.generation + 1, result := None, task := task)), l.h.result.value, reply)
  }

  function CancelConnect(l: Local, reply: Reply): Local {
    var l1 := l.(h := l.h.(preparation := l.h.preparation + 1));
    if l1.h.connectPending && l1.h.callbackResult.Some? then
      Say(l1.(h := l1.h.(needsDisconnect := true, connectionGeneration := l1.h.connectionGeneration + 1,
                         connected := false, callbackResult := None)), l1.h.callbackResult.value, reply)
    else l1
  }

  function HandleDisconnected(l: Local, generation: nat): Local {
    if generation != l.h.connectionGeneration then l
    else
      var l1 := l.(h := l.h.(connected := false));
      if l1.h.recovers then l1 else Cancel(l1, Disconnected, false)
  }

  /** The four exchanging requests: connected, well formed, and no exchange under way. */
  function Exchange(l: Local, request: nat, kind: Kind, valid: bool): Local {
    if l.h.permission.Some? || l.h.callbackPending then Say(l, request, Busy)
    else
      var (l1, granted) := TransportFor(l, request);
      if !granted then l1
      else if !l1.h.connected || l1.link.None? then Say(l1, request, NotConnected)
      else if !valid then Say(l1, request, Invalid)
      else StartExchange(l1, request, kind)
  }

  function StartExchange(l: Local, request: nat, kind: Kind): Local {
    if l.h.task.Some? then Say(l, request, Busy)
    else
      var generation := l.h.generation + 1;
      l.(h := l.h.(generation := generation, result := Some(request), recovers := kind.OpenZcashApp?,
                   task := Some(Task(request, kind, generation, l.h.preparation, false, Ready))))
  }

  /** The task hands an APDU to the device, after its last look at the cancellation. */
  function TaskSends(l: Local): Local {
    if l.h.task.Some? && l.h.task.value.awaits.Ready? && !l.h.task.value.cancelled then
      l.(h := l.h.(task := Some(l.h.task.value.(awaits := Apdu))),
         sends := l.sends + [Send(l.h.task.value.request, |l.answers|, l.link)])
    else l
  }

  /** An app switch reconnects, unless cancelled in either of the two ways. */
  function TaskReconnects(l: Local): Local {
    if && l.h.task.Some? && l.h.task.value.awaits.Ready? && l.h.task.value.kind.OpenZcashApp?
       && !l.h.task.value.cancelled && l.h.preparation == l.h.task.value.preparation
    then l.(h := l.h.(connectionGeneration := l.h.connectionGeneration + 1,
                      task := Some(l.h.task.value.(awaits := Reconnect))))
    else l
  }

  /** The device (or the SDK, in failing) answers what the task waits for. */
  function TaskResumes(l: Local, failed: bool): Local {
    if l.h.task.Some? && !l.h.task.value.awaits.Ready? then
      var connected := l.h.connected || (l.h.task.value.awaits.Reconnect? && !failed);
      l.(h := l.h.(connected := connected, task := Some(l.h.task.value.(awaits := Ready))))
    else l
  }

  function QueryStarts(l: Local): Local {
    if l.h.task.Some? && l.h.task.value.awaits.Ready? then l.(h := l.h.(timers := l.h.timers + {l.h.generation})) else l
  }

  function TimerFires(l: Local, generation: nat): Local {
    if generation in l.h.timers && generation == l.h.generation && l.h.result.Some? then
      Cancel(l.(h := l.h.(queryRequiresDisconnect := true, connected := false)), Disconnected, true)
    else l
  }

  function FinishExchange(l: Local, generation: nat, reply: Reply): Local {
    if generation == l.h.generation && l.h.result.Some? then
      Say(l.(h := l.h.(result := None)), l.h.result.value, reply)
    else l
  }

  /** The task returns or throws: its own request is answered, if it still waits. An app
      switch that succeeded has its device back. */
  function TaskAnswered(l: Local, task: Task, outcome: Reply): Local {
    var reply := if task.cancelled then Cancelled else outcome;
    TaskGone(FinishExchange(l, task.generation, reply), task.kind.OpenZcashApp? && reply.Done?)
  }

  function TaskGone(l: Local, back: bool): Local {
    l.(h := l.h.(task := None, recovers := false, connected := l.h.connected || back))
  }

  /** A link that a timed-out query used is retired. */
  function RetireLink(l: Local): Local {
    if l.h.queryRequiresDisconnect then
      Drain(l.(h := l.h.(queryRequiresDisconnect := false, needsDisconnect := l.link.Some?)))
    else l
  }

  function TaskEnds(l: Local, outcome: Reply): Local {
    if l.h.task.Some? && l.h.task.value.awaits.Ready? then RetireLink(TaskAnswered(l, l.h.task.value, outcome)) else l
  }

  // ---------- permissions ----------

  datatype Authorization = Allowed | NotDetermined | Denied

  function RequestPermissions(l: Local, request: nat, authorization: Authorization): Local {
    if l.h.closing || l.h.permission.Some? || l.h.task.Some? || l.h.callbackPending then Say(l, request, Busy)
    else if !authorization.NotDetermined? then Say(l, request, Done)
    else
      var (l1, granted) := TransportFor(l, request);
      if !granted then l1 else l1.(h := l1.h.(permission := Some(request)))
  }

  // ---------- steps ----------

  datatype Ask =
    | AskConnect(valid: bool)
    | AskDisconnect
    | AskExchange(kind: Kind, valid: bool)
    | AskCancel
    | AskPermissions(authorization: Authorization)

  function Asked(l: Local, request: nat, ask: Ask): Local {
    match ask
    case AskConnect(valid) => Connect(l, request, valid)
    case AskDisconnect => Disconnect(l, request)
    case AskExchange(kind, valid) => Exchange(l, request, kind, valid)
    case AskCancel => Say(Cancel(l, Cancelled, true), request, Done)
    case AskPermissions(authorization) => RequestPermissions(l, request, authorization)
  }

  datatype Event =
    | Closes
    | TaskIsAwaited
    | Retries
    | Nudged
    | CallsBack(failed: bool)
    | LosesDevice(generation: nat)
    | TimesOut(generation: nat)
    | DecidesPermission
    | StartsQuery
    | SendsApdu
    | Reconnects
    | Resumes(failed: bool)
    | EndsTask(outcome: Reply)
    | LinkComesUp
    | LinkGoesDown

  /** An SDK call calls back, once. A disconnect that reports success has brought the link down. */
  function CalledBack(l: Local, failed: bool): Local {
    if l.h.calls == [] then l
    else
      var call := l.h.calls[0];
      var l1 := CallOver(l, failed);
      match call
      case ConnectCall(_) => FinishConnect(l1, failed)
      case DisconnectCall => FinishDisconnect(l1, failed)
      case DrainCall => DrainDone(l1, failed)
      case CloseCall => CloseDone(l1, failed)
  }

  function CallOver(l: Local, failed: bool): Local
    requires l.h.calls != []
  {
    l.(h := l.h.(calls := l.h.calls[1..]), link := if failed || l.h.calls[0].ConnectCall? then l.link else None)
  }

  /** A link comes up only while something is connecting. */
  function LinkUp(l: Local): Local {
    if l.h.calls != [] && l.h.calls[0].ConnectCall? then l.(link := Some(Link(l.h.calls[0].request, false)))
    else if l.h.task.Some? && l.h.task.value.awaits.Reconnect? then l.(link := Some(Link(l.h.task.value.request, true)))
    else l
  }

  function Happened(l: Local, event: Event): Local {
    match event
    case Closes => Close(l)
    case TaskIsAwaited => TaskAwaited(l)
    case Retries => RetryFires(l)
    case Nudged => ScheduleCloseRetry(l)
    case CallsBack(failed) => CalledBack(l, failed)
    case LosesDevice(generation) => HandleDisconnected(l, generation)
    case TimesOut(generation) => TimerFires(l, generation)
    case DecidesPermission => FinishPermission(l)
    case StartsQuery => QueryStarts(l)
    case SendsApdu => TaskSends(l)
    case Reconnects => TaskReconnects(l)
    case Resumes(failed) => TaskResumes(l, failed)
    case EndsTask(outcome) => TaskEnds(l, outcome)
    case LinkComesUp => LinkUp(l)
    case LinkGoesDown => l.(link := None)
  }

  // ---------- shapes ----------

  /** Cancelling touches neither the transport nor the SDK calls. */
  predicate SameShape(l: Local, m: Local) {
    && m.h.closing == l.h.closing && m.h.permission == l.h.permission && m.h.calls == l.h.calls
    && m.h.callbackPending == l.h.callbackPending && m.h.task.Some? == l.h.task.Some? && m.h.awaitsTask == l.h.awaitsTask
    && (l.h.needsDisconnect ==> m.h.needsDisconnect) && m.owner == l.owner && m.link == l.link
  }

  lemma CancelConnectShape(l: Local, reply: Reply)
    ensures SameShape(l, CancelConnect(l, reply))
    ensures CancelConnect(l, reply).h.connectPending ==> CancelConnect(l, reply).h.callbackResult.None?
  {
    assert CancelConnect(l, reply).h.calls == l.h.calls;
  }

  lemma CancelExchangeShape(l: Local, reply: Reply)
    ensures SameShape(l, CancelExchange(l, reply)) && CancelExchange(l, reply).h.result.None?
    ensures CancelExchange(l, reply).h.connectPending == l.h.connectPending
    ensures CancelExchange(l, reply).h.callbackResult == l.h.callbackResult
  {
    assert CancelExchange(l, reply).h.calls == l.h.calls;
  }

  lemma CancelShape(l: Local, reply: Reply, cancelPreparation: bool)
    ensures SameShape(l, Cancel(l, reply, cancelPreparation)) && Cancel(l, reply, cancelPreparation).h.result.None?
    ensures var h := Cancel(l, reply, cancelPreparation).h; cancelPreparation && h.connectPending ==> h.callbackResult.None?
  {
    hide CancelConnect, CancelExchange;
    CancelConnectShape(l, reply);
    CancelExchangeShape(if cancelPreparation then CancelConnect(l, reply) else l, reply);
  }

  // ---------- several handlers, one transport ----------

  datatype World = World(handlers: seq<Handler>, owner: Option<nat>, link: Option<Link>, next: nat,
                         answers: seq<Answer>, sends: seq<Send>)

  datatype Step = Request(ask: Ask) | Occurs(event: Event)

  function View(w: World, i: nat): Local
    requires i < |w.handlers|
  {
    var owner := if w.owner.None? then Free else if w.owner.value == i then Mine else Other;
    Local(w.handlers[i], owner, w.link, w.answers, w.sends)
  }

  function Put(w: World, i: nat, l: Local, next: nat): World
    requires i < |w.handlers|
  {
    var owner := match l.owner case Free => None case Mine => Some(i) case Other => w.owner;
    World(w.handlers[i := l.h], owner, l.link, next, l.answers, l.sends)
  }

  /** One step of handler `i`: a new request, or an event. */
  function Next(w: World, i: nat, step: Step): World
    requires i < |w.handlers|
  {
    match step
    case Request(ask) => Put(w, i, Asked(View(w, i), w.next, ask), w.next + 1)
    case Occurs(event) => Put(w, i, Happened(View(w, i), event), w.next)
  }

  const IDLE := Handler(false, false, 0, None, None, 0, false, 0, false, false, false, None, false, false, false, false,
                        false, {}, None, [])

  function Start(count: nat): World {
    World(seq(count, _ => IDLE), None, None, 0, [], [])
  }

  /** A run: who steps, and how. Steps of handlers that do not exist do nothing. */
  function Run(count: nat, steps: seq<(nat, Step)>): (w: World)
    ensures |w.handlers| == count
  {
    if steps == [] then Start(count)
    else
      var w := Run(count, steps[..|steps| - 1]);
      var (i, step) := steps[|steps| - 1];
      if i < |w.handlers| then Next(w, i, step) else w
  }
}
