/** `OrderBookMasterActor`: a child-per-ticker parent that looks up the order book
    named after a message's StockId, creates it when missing, and forwards the
    original message to it. Each child gets a fresh in-memory publisher. */
module OrderBookMaster {
  import opened Wrappers
  import opened Routing

  /** A child order book; `publisher` identifies the publisher instance created for it. */
  datatype Child = Child(name: string, publisher: nat)

  /** The publisher of each child, by child name; `nextPublisher` is the next unused publisher instance. */
  datatype Master = Master(children: map<string, nat>, nextPublisher: nat)

  datatype Forward = Forward(child: string, msg: Message)

  /** Children hold distinct, already-allocated publishers. */
  ghost predicate Valid(m: Master) {
    && (forall n :: n in m.children ==> m.children[n] < m.nextPublisher)
    && (forall n1, n2 :: n1 in m.children && n2 in m.children && n1 != n2 ==> m.children[n1] != m.children[n2])
  }

  /** Whether `ActorOf` accepts `name` as a child's name: not empty, not starting with the
      reserved '$', and a single path element (no '/'). */
  predicate ValidActorName(name: string) {
    |name| > 0 && name[0] != '$' && '/' !in name
  }

  /** `Context.Child(name).GetOrElse(() => StartChild(name))`: an existing child is found
      under any name; creating one fails for a name `ActorOf` rejects. */
  function ChildFor(m: Master, name: string): (r: Result<(Master, Child)>)
    ensures r.Err? <==> name !in m.children && !ValidActorName(name)
    ensures r.Ok? ==> r.value.1.name == name && name in r.value.0.children
                      && r.value.0.children[name] == r.value.1.publisher
    ensures name in m.children ==> r == Ok((m, Child(name, m.children[name])))
    ensures name !in m.children && r.Ok? ==>
              r.value.0.children == m.children[name := m.nextPublisher] && r.value.1.publisher == m.nextPublisher
              && r.value.0.nextPublisher == m.nextPublisher + 1
  {
    if name in m.children then Ok((m, Child(name, m.children[name])))
    else if !ValidActorName(name) then Err("invalid actor name: " + name)
    else Ok((Master(m.children[name := m.nextPublisher], m.nextPublisher + 1), Child(name, m.nextPublisher)))
  }

  /** Handles one message: a StockId message, or a confirmable envelope around one, is
      forwarded unmodified to the child named after the StockId; anything else is unhandled,
      and so is a message whose child cannot be created. */
  function Receive(m: Master, msg: Message): (r: (Master, Option<Forward>))
    ensures EntityId(msg).None? ==> r == (m, None)
    ensures EntityId(msg).Some? && ChildFor(m, EntityId(msg).value).Err? ==> r == (m, None)
    ensures EntityId(msg).Some? && ChildFor(m, EntityId(msg).value).Ok? ==>
              r.1 == Some(Forward(EntityId(msg).value, msg)) && EntityId(msg).value in r.0.children
    ensures forall n :: n in m.children ==> n in r.0.children && r.0.children[n] == m.children[n]
    ensures r.0.children.Keys <= m.children.Keys + (if EntityId(msg).Some? then {EntityId(msg).value} else {})
    ensures forall n :: n in r.0.children && n !in m.children ==> ValidActorName(n)
  {
    match EntityId(msg)
    case None => (m, None)
    case Some(name) =>
      match ChildFor(m, name)
      case Err(_) => (m, None)
      case Ok((m', child)) => (m', Some(Forward(child.name, msg)))
  }

  /** Receiving never lets two tickers share a publisher. */
  lemma ReceivePreservesValid(m: Master, msg: Message)
    requires Valid(m)
    ensures Valid(Receive(m, msg).0)
  {
  }

  /** Processes a sequence of messages, collecting the forwards in order. */
  function ReceiveAll(m: Master, msgs: seq<Message>): (Master, seq<Forward>)
    decreases |msgs|
  {
    if |msgs| == 0 then (m, [])
    else
      var (m1, f) := Receive(m, msgs[0]);
      var (m2, fs) := ReceiveAll(m1, msgs[1..]);
      (m2, (if f.Some? then [f.value] else []) + fs)
  }

  /** Over any run, a ticker's child, once created, stays the same child: all messages for
      one StockId reach one order book, and tickers never share a publisher. */
  lemma {:induction false} ReceiveAllKeepsChildren(m: Master, msgs: seq<Message>)
    requires Valid(m)
    ensures Valid(ReceiveAll(m, msgs).0)
    ensures forall n :: n in m.children ==>
              n in ReceiveAll(m, msgs).0.children && ReceiveAll(m, msgs).0.children[n] == m.children[n]
    ensures forall f :: f in ReceiveAll(m, msgs).1 ==> f.child in ReceiveAll(m, msgs).0.children
    decreases |msgs|
  {
    if |msgs| > 0 {
      ReceivePreservesValid(m, msgs[0]);
      var (m1, f) := Receive(m, msgs[0]);
      ReceiveAllKeepsChildren(m1, msgs[1..]);
    }
  }
}
