/** The agent: two collectors and some senders share one bounded channel, and
    every PollCount message carries the address of one counter. The program is
    a machine whose steps are the points where a goroutine can be preempted. */
module Agent {
  import opened Numbers
  import opened Lists

  const CAPACITY: nat := 1000

  /** A gauge carries its own value; PollCount carries &pollCounter. */
  datatype Message = GaugeMessage(id: string, value: Float64) | PollCount

  /** A message with its position in the order of sends. */
  datatype Item = Item(pos: nat, msg: Message)

  /** A collector: waiting in select, sending the gauges of a tick, about to
      send PollCount after counting, or returned. */
  datatype Collector = Polling | Gauges(todo: seq<Message>) | Counted | Returned

  /** Where a sender goes after its client call. */
  datatype Then = ToSelect | ToDrain | ToExit

  /** A sender: waiting in select, draining the channel into batch, in a client
      call that has serialised done, by their places in the history of all
      calls, and still has todo, or returned. */
  datatype Sender =
    | Waiting
    | Draining(batch: seq<Item>)
    | Calling(todo: seq<Item>, done: seq<nat>, next: Then)
    | Exited

  /** A message that a client call serialised. For PollCount, polls is how many
      polls there had been, and delta is what was read at its address. */
  datatype Handed = Handed(sender: nat, item: Item, polls: nat, delta: Int64)

  datatype Main = Running | Joining | Closed

  datatype State = State(
    batchMode: bool,
    queue: seq<Item>,            // the channel
    closed: bool,
    cancelled: bool,             // the context
    main: Main,
    runtime: Collector,
    gopsutil: Collector,
    pollCounter: Int64,          // the shared cell
    senders: seq<Sender>,
    panicked: bool,
    // history
    polls: nat,                  // increments of pollCounter
    sent: seq<Message>,          // every message, in the order of the sends
    received: seq<seq<Item>>,    // what each sender took from the channel
    handed: seq<Handed>,         // what the client calls serialised, in order
    calls: seq<seq<nat>>)        // the calls whose body is complete: their places in handed

  datatype Step =
    | TickRuntime(gauges: seq<Message>)
    | SendRuntimeGauge
    | CountPoll
    | SendPollCount
    | StopRuntime
    | TickGopsutil(gauges: seq<Message>)
    | SendGopsutilGauge
    | StopGopsutil
    | TickSender(i: nat)
    | Receive(i: nat)
    | DrainDone(i: nat)      // the default case: nothing to receive
    | DrainClosed(i: nat)    // the channel is closed and empty
    | Serialise(i: nat)
    | CallReturns(i: nat)
    | StopSender(i: nat)
    | Signal                 // main leaves <-sigCh and cancels
    | Close                  // main leaves wg.Wait and closes the channel

  predicate OnlyGauges(ms: seq<Message>) {
    forall i :: 0 <= i < |ms| ==> ms[i].GaugeMessage?
  }

  /** The gauges of a tick come from a map: each name once, in any order. */
  predicate IsTick(ms: seq<Message>) {
    && OnlyGauges(ms)
    && forall i, j :: 0 <= i < j < |ms| ==> ms[i].id != ms[j].id
  }

  /** A send goes through when there is room, and panics on a closed channel;
      otherwise it blocks. */
  predicate SendReady(s: State) {
    s.closed || |s.queue| < CAPACITY
  }

  predicate Enabled(s: State, a: Step) {
    && !s.panicked
    && match a
       case TickRuntime(gauges) => s.runtime == Polling && IsTick(gauges)
       case SendRuntimeGauge => s.runtime.Gauges? && s.runtime.todo != [] && SendReady(s)
       case CountPoll => s.runtime == Gauges([])
       case SendPollCount => s.runtime == Counted && SendReady(s)
       case StopRuntime => s.runtime == Polling && s.cancelled
       case TickGopsutil(gauges) => s.gopsutil == Polling && IsTick(gauges)
       case SendGopsutilGauge => s.gopsutil.Gauges? && s.gopsutil.todo != [] && SendReady(s)
       case StopGopsutil => s.gopsutil == Polling && s.cancelled
       case TickSender(i) => i < |s.senders| && s.senders[i] == Waiting
       case Receive(i) => i < |s.senders| && s.senders[i].Draining? && s.queue != []
       case DrainDone(i) => i < |s.senders| && s.senders[i].Draining? && s.queue == [] && !s.closed
       case DrainClosed(i) => i < |s.senders| && s.senders[i].Draining? && s.queue == [] && s.closed
       case Serialise(i) => i < |s.senders| && s.senders[i].Calling? && s.senders[i].todo != []
       case CallReturns(i) => i < |s.senders| && s.senders[i].Calling? && s.senders[i].todo == []
       case StopSender(i) => i < |s.senders| && s.senders[i] == Waiting && s.cancelled
       case Signal => s.main == Running
       case Close => s.main == Joining && s.runtime == Returned && s.gopsutil == Returned
  }

  /** metricChan <- m */
  function Send(s: State, m: Message): State {
    if s.closed then s.(panicked := true)
    else s.(queue := s.queue + [Item(|s.sent|, m)], sent := s.sent + [m])
  }

  function Advance(c: Collector): Collector
    requires c.Gauges? && c.todo != []
  {
    Gauges(c.todo[1..])
  }

  /** The gopsutil loop ends after its last gauge. */
  function Rest(c: Collector): Collector {
    if c == Gauges([]) then Polling else c
  }

  function Put(s: State, i: nat, p: Sender): State
    requires i < |s.senders|
  {
    s.(senders := s.senders[i := p])
  }

  /** With a batch the client is called once for all of it; without one, for
      each message as it comes. */
  function Taken(s: State, i: nat, item: Item): Sender
    requires i < |s.senders| && s.senders[i].Draining?
  {
    if s.batchMode then Draining(s.senders[i].batch + [item]) else Calling([item], [], ToDrain)
  }

  /** One more message of the call is in the body. */
  function Serialised(c: Sender, place: nat): Sender
    requires c.Calling? && c.todo != []
  {
    Calling(c.todo[1..], c.done + [place], c.next)
  }

  function FlushBatch(batch: seq<Item>, next: Then): Sender {
    if batch != [] then Calling(batch, [], next) else if next == ToExit then Exited else Waiting
  }

  function Next(s: State, a: Step): State
    requires Enabled(s, a)
  {
    match a
    case TickRuntime(gauges) => s.(runtime := Gauges(gauges))
    case SendRuntimeGauge => Send(s, s.runtime.todo[0]).(runtime := Advance(s.runtime))
    case CountPoll => s.(runtime := Counted, polls := s.polls + 1, pollCounter := Wrap64(s.pollCounter + 1))
    case SendPollCount => Send(s, PollCount).(runtime := Polling)
    case StopRuntime => s.(runtime := Returned)
    case TickGopsutil(gauges) => s.(gopsutil := Rest(Gauges(gauges)))
    case SendGopsutilGauge => Send(s, s.gopsutil.todo[0]).(gopsutil := Rest(Advance(s.gopsutil)))
    case StopGopsutil => s.(gopsutil := Returned)
    case TickSender(i) => Put(s, i, Draining([]))
    case Receive(i) =>
      var item := s.queue[0];
      Put(s, i, Taken(s, i, item)).(queue := s.queue[1..],
        received := if i < |s.received| then s.received[i := s.received[i] + [item]] else s.received)
    case DrainDone(i) => Put(s, i, FlushBatch(s.senders[i].batch, ToSelect))
    case DrainClosed(i) => Put(s, i, FlushBatch(s.senders[i].batch, ToExit))
    case Serialise(i) =>
      var c := s.senders[i];
      Put(s, i, Serialised(c, |s.handed|)).(
        handed := s.handed + [Handed(i, c.todo[0], s.polls, s.pollCounter)],
        calls := if |c.todo| == 1 then s.calls + [c.done + [|s.handed|]] else s.calls)
    case CallReturns(i) =>
      Put(s, i, match s.senders[i].next
                case ToSelect => Waiting
                case ToDrain => Draining([])
                case ToExit => Exited)
    case StopSender(i) => Put(s, i, Exited)
    case Signal => s.(main := Joining, cancelled := true)
    case Close => s.(main := Closed, closed := true)
  }

  predicate CanRun(s: State, run: seq<Step>)
    decreases |run|
  {
    run == [] || (Enabled(s, run[0]) && CanRun(Next(s, run[0]), run[1..]))
  }

  function After(s: State, run: seq<Step>): State
    requires CanRun(s, run)
    decreases |run|
  {
    if run == [] then s else After(Next(s, run[0]), run[1..])
  }

  /** The state in which main starts rateLimit senders. */
  function Start(rateLimit: nat, batchMode: bool): State {
    State(batchMode, [], false, false, Running, Polling, Polling, 0,
          seq(rateLimit, _ => Waiting), false, 0, [], seq(rateLimit, _ => []), [], [])
  }

  ghost predicate Reachable(s: State) {
    exists n: nat, b, run :: CanRun(Start(n, b), run) && After(Start(n, b), run) == s
  }

  // ---------------------------------------------------------------- where messages are

  /** Every message with its position. */
  function Tagged(ms: seq<Message>): seq<Item> {
    if ms == [] then [] else Tagged(ms[..|ms| - 1]) + [Item(|ms| - 1, ms[|ms| - 1])]
  }

  /** What a sender has taken and not handed over yet. */
  function HeldBy(p: Sender): seq<Item> {
    match p
    case Draining(batch) => batch
    case Calling(todo, _, _) => todo
    case _ => []
  }

  function HeldParts(ps: seq<Sender>): seq<seq<Item>> {
    seq(|ps|, i requires 0 <= i < |ps| => HeldBy(ps[i]))
  }

  function Held(ps: seq<Sender>): multiset<Item> {
    Total(HeldParts(ps))
  }

  function ItemsOf(hs: seq<Handed>): seq<Item> {
    if hs == [] then [] else ItemsOf(hs[..|hs| - 1]) + [hs[|hs| - 1].item]
  }

  function ItemsFrom(hs: seq<Handed>, i: nat): seq<Item> {
    if hs == [] then []
    else ItemsFrom(hs[..|hs| - 1], i) + if hs[|hs| - 1].sender == i then [hs[|hs| - 1].item] else []
  }
}
