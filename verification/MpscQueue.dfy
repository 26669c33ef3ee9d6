/**
  MpscLinkedQueue: any number of producers in enqueue(), one consumer in dequeue() or
  empty(), one step per atomic operation. A freed address may be handed out again.

  The order of elements is the order of the exchanges on `head`.
 */
module MpscQueue {

  datatype Ptr = Null | To(n: int)

  datatype Node = Node(element: Ptr, next: Ptr)

  /** `k` is auxiliary: how many exchanges came before this producer's. */
  datatype Producer =
    | Away
    | Swap(n: int)                 // node built, head.exchange to come
    | Link(o: int, n: int, k: int)   // exchange done, oldhead->next.store to come

  datatype Consumer =
    | Out
    | LoadNext | LoadHead | Spin
    | Unlink(x: int) | Take(x: int) | Advance(x: int, got: Ptr) | Free(cur: int, got: Ptr)
    | EmptyNext | EmptyHead

  /** `chain`, `enqueued` and `dequeued` are auxiliary: the nodes from the stub on, in exchange order,
      and the elements that went in and came out. */
  datatype Memory = Memory(nodes: map<int, Node>, head: int, tail: int,
                           chain: seq<int>, enqueued: seq<int>, dequeued: seq<int>)

  datatype State = State(m: Memory, producers: map<int, Producer>, consumer: Consumer)

  datatype Action =
    | Enqueue(t: int, e: int, n: int)   // enqueue(e) called, `new` returned address n
    | Produce(t: int)
    | BeginDequeue | BeginEmpty
    | Consume

  predicate Enabled(s: State, x: Action) {
    match x
    case Enqueue(t, _, n) => t in s.producers && s.producers[t].Away? && n !in s.m.nodes
    case Produce(t) => t in s.producers && !s.producers[t].Away? && !Dangling(s, x)
    case BeginDequeue => s.consumer.Out?
    case BeginEmpty => s.consumer.Out?
    case Consume => !s.consumer.Out? && !Dangling(s, x)
  }

  /** The step would touch memory that is not an allocated node. */
  predicate Dangling(s: State, x: Action) {
    match x
    case Produce(t) => t in s.producers && s.producers[t].Link? && s.producers[t].o !in s.m.nodes
    case Consume =>
      (match s.consumer
       case LoadNext => s.m.tail !in s.m.nodes
       case Spin => s.m.tail !in s.m.nodes
       case Unlink(_) => s.m.tail !in s.m.nodes
       case Take(x) => x !in s.m.nodes
       case Free(cur, _) => cur !in s.m.nodes
       case EmptyNext => s.m.tail !in s.m.nodes
       case _ => false)
    case _ => false
  }

  function ProducePc(m: Memory, p: Producer): Producer {
    match p
    case Swap(n) => Link(m.head, n, |m.enqueued|)
    case _ => Away
  }

  function ProduceMemory(m: Memory, p: Producer): Memory
    requires p.Link? ==> p.o in m.nodes
  {
    match p
    case Swap(n) =>
      m.(head := n, chain := m.chain + [n],
         enqueued := m.enqueued + (if n in m.nodes && m.nodes[n].element.To? then [m.nodes[n].element.n] else []))
    case Link(o, n, _) => m.(nodes := m.nodes[o := m.nodes[o].(next := To(n))])
    case Away => m
  }

  function ConsumePc(m: Memory, c: Consumer): Consumer
    requires (c.LoadNext? || c.Spin? || c.EmptyNext?) ==> m.tail in m.nodes
    requires c.Take? ==> c.x in m.nodes
  {
    match c
    case LoadNext => if m.nodes[m.tail].next.Null? then LoadHead else Unlink(m.nodes[m.tail].next.n)
    case LoadHead => if m.head == m.tail then Out else Spin
    case Spin => if m.nodes[m.tail].next.Null? then Spin else Unlink(m.nodes[m.tail].next.n)
    case Unlink(x) => Take(x)
    case Take(x) => Advance(x, m.nodes[x].element)
    case Advance(_, got) => Free(m.tail, got)
    case Free(_, _) => Out
    case EmptyNext => if m.nodes[m.tail].next.Null? then EmptyHead else Out
    case EmptyHead => Out
    case Out => Out
  }

  function ConsumeMemory(m: Memory, c: Consumer): Memory
    requires c.Unlink? ==> m.tail in m.nodes
    requires c.Take? ==> c.x in m.nodes
  {
    match c
    case Unlink(_) => m.(nodes := m.nodes[m.tail := m.nodes[m.tail].(next := Null)])
    case Take(x) => m.(nodes := m.nodes[x := m.nodes[x].(element := Null)])
    case Advance(x, got) =>
      m.(tail := x, chain := if m.chain == [] then [] else m.chain[1..],
         dequeued := m.dequeued + (if got.To? then [got.n] else []))
    case Free(cur, _) => m.(nodes := m.nodes - {cur})
    case _ => m
  }

  function Do(s: State, x: Action): State
    requires Enabled(s, x)
  {
    match x
    case Enqueue(t, e, n) =>
      State(s.m.(nodes := s.m.nodes[n := Node(To(e), Null)]), s.producers[t := Swap(n)], s.consumer)
    case Produce(t) =>
      State(ProduceMemory(s.m, s.producers[t]), s.producers[t := ProducePc(s.m, s.producers[t])], s.consumer)
    case BeginDequeue => s.(consumer := LoadNext)
    case BeginEmpty => s.(consumer := EmptyNext)
    case Consume => State(ConsumeMemory(s.m, s.consumer), s.producers, ConsumePc(s.m, s.consumer))
  }

  // ---------------------------------------------------------------- invariant

  /** The consumer has disconnected the stub from its successor. */
  predicate Cut(c: Consumer) { c.Take? || c.Advance? }

  /** The chain runs from the stub to the last node exchanged into `head`. */
  ghost predicate InvChain(s: State) {
    var m := s.m;
    && |m.chain| == |m.enqueued| - |m.dequeued| + 1 && |m.chain| >= 1
    && m.chain[0] == m.tail && m.chain[|m.chain| - 1] == m.head
    && (forall i :: 0 <= i < |m.chain| ==> m.chain[i] in m.nodes)
    && (forall i, j :: 0 <= i < j < |m.chain| ==> m.chain[i] != m.chain[j])
  }

  /** Behind the stub sit the elements not yet dequeued, in the order of the exchanges. */
  ghost predicate InvContent(s: State) {
    var m := s.m;
    && |m.chain| == |m.enqueued| - |m.dequeued| + 1
    && (forall i :: 0 <= i < |m.dequeued| ==> i < |m.enqueued| && m.dequeued[i] == m.enqueued[i])
    && (forall i :: 1 <= i < |m.chain| && !(i == 1 && s.consumer.Advance?) ==>
          m.chain[i] in m.nodes && m.nodes[m.chain[i]].element == To(m.enqueued[|m.dequeued| + i - 1]))
  }

  /** A link is there or Null, and the last one is Null. */
  ghost predicate InvLinks(s: State) {
    var m := s.m;
    && (forall i :: 0 <= i < |m.chain| ==> m.chain[i] in m.nodes)
    && (forall i :: 0 <= i < |m.chain| - 1 ==>
          m.nodes[m.chain[i]].next == Null || m.nodes[m.chain[i]].next == To(m.chain[i + 1]))
    && (|m.chain| > 0 ==> m.nodes[m.chain[|m.chain| - 1]].next == Null)
  }

  ghost predicate InvProducers(s: State) {
    forall t :: t in s.producers ==> FitsProducer(s, s.producers[t])
  }

  predicate FitsProducer(s: State, p: Producer) {
    var m := s.m;
    match p
    case Away => true
    case Swap(n) =>
      && n in m.nodes && m.nodes[n].next == Null && m.nodes[n].element.To?
      && n !in m.chain && !(s.consumer.Free? && s.consumer.cur == n)
    case Link(o, n, k) =>
      var i := k - |m.dequeued|;
      && 0 <= i < |m.chain| - 1 && m.chain[i] == o && m.chain[i + 1] == n
      && o in m.nodes && m.nodes[o].next == Null
      && (i == 0 ==> !Cut(s.consumer) && !s.consumer.Unlink?)
  }

  /** Producers own different nodes, or different places in the chain. */
  ghost predicate InvApart(s: State) {
    forall t, u :: t in s.producers && u in s.producers && t != u ==>
      && (s.producers[t].Swap? && s.producers[u].Swap? ==> s.producers[t].n != s.producers[u].n)
      && (s.producers[t].Link? && s.producers[u].Link? ==> s.producers[t].k != s.producers[u].k)
  }

  predicate InvConsumer(s: State) {
    var m, c := s.m, s.consumer;
    && (c.Spin? || c.Unlink? || Cut(c) ==> |m.chain| >= 2)
    && (c.Unlink? ==> c.x == m.chain[1] && m.tail in m.nodes && m.nodes[m.tail].next == To(c.x))
    && (Cut(c) ==> c.x == m.chain[1])
    && (c.Advance? ==> |m.dequeued| < |m.enqueued| && c.got == To(m.enqueued[|m.dequeued|]))
    && (c.Free? ==> c.cur in m.nodes && c.cur !in m.chain)
  }

  ghost predicate Safe(s: State) {
    InvChain(s) && InvContent(s) && InvLinks(s) && InvProducers(s) && InvApart(s) && InvConsumer(s)
  }

  lemma {:induction false} ChainProduce(s: State, x: Action)
    requires Safe(s) && Enabled(s, x) && !x.Consume?
    ensures InvChain(Do(s, x))
  {
  }

  lemma {:induction false} ChainConsume(s: State)
    requires Safe(s) && Enabled(s, Consume)
    ensures InvChain(Do(s, Consume))
  {
  }

  lemma {:induction false} ContentProduce(s: State, x: Action)
    requires Safe(s) && Enabled(s, x) && !x.Consume?
    ensures InvContent(Do(s, x))
  {
  }

  lemma {:induction false} ContentConsume(s: State)
    requires Safe(s) && Enabled(s, Consume)
    ensures InvContent(Do(s, Consume))
  {
  }

  lemma {:induction false} LinksProduce(s: State, x: Action)
    requires Safe(s) && Enabled(s, x) && !x.Consume?
    ensures InvLinks(Do(s, x))
  {
  }

  lemma {:induction false} LinksConsume(s: State)
    requires Safe(s) && Enabled(s, Consume)
    ensures InvLinks(Do(s, Consume))
  {
  }

  lemma {:induction false} ProducersProduce(s: State, x: Action)
    requires Safe(s) && Enabled(s, x) && !x.Consume?
    ensures InvProducers(Do(s, x))
  {
  }

  lemma {:induction false} ProducersConsume(s: State)
    requires Safe(s) && Enabled(s, Consume)
    ensures InvProducers(Do(s, Consume))
  {
  }

  lemma {:induction false} ApartKept(s: State, x: Action)
    requires Safe(s) && Enabled(s, x)
    ensures InvApart(Do(s, x))
  {
  }

  lemma {:induction false} ConsumerKept(s: State, x: Action)
    requires Safe(s) && Enabled(s, x)
    ensures InvConsumer(Do(s, x))
  {
  }

  lemma {:induction false} SafeKept(s: State, x: Action)
    requires Safe(s) && Enabled(s, x)
    ensures Safe(Do(s, x))
  {
    if x.Consume? {
      ChainConsume(s);
      ContentConsume(s);
      LinksConsume(s);
      ProducersConsume(s);
    } else {
      ChainProduce(s, x);
      ContentProduce(s, x);
      LinksProduce(s, x);
      ProducersProduce(s, x);
    }
    ApartKept(s, x);
    ConsumerKept(s, x);
  }

  ghost predicate Closing(producers: map<int, Producer>, k: int) {
    exists t :: t in producers && producers[t].Link? && producers[t].k == k
  }

  predicate Gap(m: Memory, i: nat)
    requires i < |m.chain|
  {
    m.chain[i] in m.nodes && m.nodes[m.chain[i]].next == Null
  }

  /** A gap in the chain has a producer about to close it. */
  ghost predicate InvServed(s: State) {
    forall i :: 0 <= i < |s.m.chain| - 1 && Gap(s.m, i) && !(i == 0 && Cut(s.consumer)) ==>
      Closing(s.producers, |s.m.dequeued| + i)
  }

  lemma {:induction false} ServedConsume(s: State)
    requires Safe(s) && InvServed(s) && Enabled(s, Consume)
    ensures InvServed(Do(s, Consume))
  {
    var s' := Do(s, Consume);
    forall i | 0 <= i < |s'.m.chain| - 1 && Gap(s'.m, i) && !(i == 0 && Cut(s'.consumer))
      ensures Closing(s'.producers, |s'.m.dequeued| + i)
    {
      var j := if s.consumer.Advance? then i + 1 else i;
      assert Gap(s.m, j);
      assert Closing(s.producers, |s.m.dequeued| + j);
    }
  }

  lemma {:induction false} ServedProduce(s: State, x: Action)
    requires Safe(s) && InvServed(s) && Enabled(s, x) && !x.Consume?
    ensures InvServed(Do(s, x))
  {
    var s' := Do(s, x);
    forall i | 0 <= i < |s'.m.chain| - 1 && Gap(s'.m, i) && !(i == 0 && Cut(s'.consumer))
      ensures Closing(s'.producers, |s'.m.dequeued| + i)
    {
      if x.Produce? && s.producers[x.t].Swap? && i == |s.m.chain| - 1 {
        assert s'.producers[x.t].Link?;
      } else {
        assert Gap(s.m, i);
        var t :| t in s.producers && s.producers[t].Link? && s.producers[t].k == |s.m.dequeued| + i;
        assert s'.producers[t] == s.producers[t];
      }
    }
  }

  lemma {:induction false} ServedKept(s: State, x: Action)
    requires Safe(s) && InvServed(s) && Enabled(s, x)
    ensures InvServed(Do(s, x))
  {
    if x.Consume? { ServedConsume(s); } else { ServedProduce(s, x); }
  }

  // ---------------------------------------------------------------- runs

  function Initial(pool: set<int>): State {
    State(Memory(map[0 := Node(Null, Null)], 0, 0, [0], [], []), map t | t in pool :: Away, Out)
  }

  datatype Outcome = Stuck | At(s: State)

  function Exec(pool: set<int>, run: seq<Action>): Outcome {
    if run == [] then At(Initial(pool))
    else
      var before := Exec(pool, run[..|run| - 1]);
      if before.At? && Enabled(before.s, run[|run| - 1]) then At(Do(before.s, run[|run| - 1])) else Stuck
  }

  ghost predicate Reachable(s: State) {
    exists pool, run :: Exec(pool, run) == At(s)
  }

  lemma {:induction false} RunKeepsInv(pool: set<int>, run: seq<Action>)
    requires Exec(pool, run).At?
    ensures Safe(Exec(pool, run).s) && InvServed(Exec(pool, run).s)
  {
    if run != [] {
      RunKeepsInv(pool, run[..|run| - 1]);
      var s, x := Exec(pool, run[..|run| - 1]).s, run[|run| - 1];
      SafeKept(s, x);
      ServedKept(s, x);
    }
  }

  lemma {:induction false} InvAlways(s: State)
    requires Reachable(s)
    ensures Safe(s) && InvServed(s)
  {
    var pool, run :| Exec(pool, run) == At(s);
    RunKeepsInv(pool, run);
  }

  /** The abstract queue. */
  function Queue(m: Memory): seq<int>
    requires |m.dequeued| <= |m.enqueued|
  {
    m.enqueued[|m.dequeued|..]
  }

  /** The element of the node a producer is about to publish. */
  function Carried(s: State, t: int): int
    requires t in s.producers
  {
    var p := s.producers[t];
    if p.Swap? && p.n in s.m.nodes && s.m.nodes[p.n].element.To? then s.m.nodes[p.n].element.n else 0
  }

  /** Every step is a step of a FIFO queue: the exchange appends, moving `tail` removes the first
      element and is about to return it, nothing else changes the queue. */
  lemma {:induction false} RefinesFifo(s: State, x: Action)
    requires Reachable(s) && Enabled(s, x)
    ensures |s.m.dequeued| <= |s.m.enqueued| && s.m.dequeued == s.m.enqueued[..|s.m.dequeued|]
    ensures var s' := Do(s, x);
      && |s'.m.dequeued| <= |s'.m.enqueued|
      && Queue(s'.m) ==
           if x.Produce? && s.producers[x.t].Swap? then Queue(s.m) + [Carried(s, x.t)]
           else if x.Consume? && s.consumer.Advance? then (if Queue(s.m) == [] then [] else Queue(s.m)[1..])
           else Queue(s.m)
    ensures x.Consume? && s.consumer.Advance? ==> Queue(s.m) != [] && s.consumer.got == To(Queue(s.m)[0])
  {
    InvAlways(s);
    SafeKept(s, x);
    var m, m' := s.m, Do(s, x).m;
    assert m.dequeued == m.enqueued[..|m.dequeued|];
    if x.Produce? && s.producers[x.t].Swap? {
      assert FitsProducer(s, s.producers[x.t]);
      assert m'.dequeued == m.dequeued && m'.enqueued == m.enqueued + [Carried(s, x.t)];
    } else if x.Consume? && s.consumer.Advance? {
      assert m'.enqueued == m.enqueued && |m'.dequeued| == |m.dequeued| + 1;
    } else {
      assert m'.enqueued == m.enqueued && m'.dequeued == m.dequeued;
    }
  }

  /** dequeue() gives null, and empty() says true, at an instant when the queue is empty, and empty()
      says false only at an instant when it is not. */
  lemma {:induction false} EmptyIsExact(s: State)
    requires Reachable(s) && Enabled(s, Consume)
    ensures |s.m.dequeued| <= |s.m.enqueued|
    ensures s.consumer.LoadHead? ==> (Do(s, Consume).consumer.Out? <==> Queue(s.m) == [])
    ensures s.consumer.EmptyNext? && Do(s, Consume).consumer.Out? ==> Queue(s.m) != []
    ensures s.consumer.EmptyHead? ==> (s.m.head == s.m.tail <==> Queue(s.m) == [])
  {
    InvAlways(s);
  }

  /** No step touches freed memory, and a spinning consumer always has a producer about to link. */
  lemma {:induction false} MemorySafe(s: State, x: Action)
    requires Reachable(s)
    ensures !Dangling(s, x)
    ensures s.consumer.Spin? && s.m.tail in s.m.nodes && s.m.nodes[s.m.tail].next == Null ==>
      exists t :: t in s.producers && s.producers[t].Link? && s.producers[t].o == s.m.tail
  {
    InvAlways(s);
    if s.consumer.Spin? && s.m.nodes[s.m.tail].next == Null {
      assert Gap(s.m, 0);
      var t :| t in s.producers && s.producers[t].Link? && s.producers[t].k == |s.m.dequeued| + 0;
      assert FitsProducer(s, s.producers[t]);
    }
  }

  /** What dequeue() is about to return, once it has moved `tail`, is the element it removed last. */
  predicate InvReturns(s: State) {
    s.consumer.Free? ==>
      |s.m.dequeued| > 0 && s.consumer.got == To(s.m.dequeued[|s.m.dequeued| - 1])
  }

  lemma {:induction false} ReturnsKept(s: State, x: Action)
    requires Safe(s) && InvReturns(s) && Enabled(s, x)
    ensures InvReturns(Do(s, x))
  {
  }

  lemma {:induction false} ReturnsAlways(pool: set<int>, run: seq<Action>)
    requires Exec(pool, run).At?
    ensures InvReturns(Exec(pool, run).s)
  {
    if run != [] {
      ReturnsAlways(pool, run[..|run| - 1]);
      RunKeepsInv(pool, run[..|run| - 1]);
      ReturnsKept(Exec(pool, run[..|run| - 1]).s, run[|run| - 1]);
    }
  }

  /** In every run: when dequeue() removes an element it goes on to return that very element. */
  lemma {:induction false} ReturnsWhatItRemoved(s: State)
    requires Reachable(s)
    ensures s.consumer.Free? ==> |s.m.dequeued| > 0 && s.consumer.got == To(s.m.dequeued[|s.m.dequeued| - 1])
    ensures s.consumer.Advance? && Enabled(s, Consume) ==>
              Do(s, Consume).consumer.Free? && Do(s, Consume).consumer.got == s.consumer.got
  {
    var pool, run :| Exec(pool, run) == At(s);
    ReturnsAlways(pool, run);
  }

  /** enqueue(e) puts a node that holds `e` in the producer's hand, to be published by the exchange. */
  lemma {:induction false} EnqueueCarries(s: State, t: int, e: int, n: int)
    requires Enabled(s, Enqueue(t, e, n))
    ensures var d := Do(s, Enqueue(t, e, n)); t in d.producers && d.producers[t].Swap? && Carried(d, t) == e
  {
  }

  /** It stays there, whatever others do, until the exchange. */
  lemma {:induction false} CarriedStays(s: State, x: Action, t: int)
    requires Reachable(s) && Enabled(s, x) && t in s.producers && s.producers[t].Swap? && x != Produce(t)
    ensures t in Do(s, x).producers && Do(s, x).producers[t] == s.producers[t] && Carried(Do(s, x), t) == Carried(s, t)
  {
    InvAlways(s);
    assert FitsProducer(s, s.producers[t]);
  }

  /** dequeue() goes on as soon as the first node is linked, whether it finds it so at once or spins for it, and spins
      only while the queue is not empty. */
  lemma {:induction false} DequeueProceeds(s: State)
    requires Reachable(s) && Enabled(s, Consume)
    ensures |s.m.dequeued| <= |s.m.enqueued|
    ensures s.consumer.LoadNext? || s.consumer.Spin? ==> s.m.tail in s.m.nodes
    ensures (s.consumer.LoadNext? || s.consumer.Spin?) && s.m.nodes[s.m.tail].next.To? ==>
              Do(s, Consume).consumer == Unlink(s.m.nodes[s.m.tail].next.n)
    ensures s.consumer.LoadHead? && Queue(s.m) != [] ==> Do(s, Consume).consumer.Spin?
    ensures s.consumer.Unlink? ==> Do(s, Consume).consumer.Take?
    ensures s.consumer.Take? ==> Do(s, Consume).consumer.Advance?
  {
    InvAlways(s);
  }

  /** A producer that has published its node links it behind the node it found. */
  lemma {:induction false} ProducerLinks(s: State, t: int)
    requires Reachable(s) && Enabled(s, Produce(t)) && s.producers[t].Link?
    ensures var p, d := s.producers[t], Do(s, Produce(t));
      d.producers[t].Away? && p.o in d.m.nodes && d.m.nodes[p.o].next == To(p.n)
  {
    InvAlways(s);
  }
}
