/**
  The pipe as its threads see it: one step per locked block, and one for each promise set after the lock is
  released. Every run does what a run of `PipeModel` does, where reads are answered in the locked block.
 */
module PipeSteps {
  import opened PipeModel

  /** `due`: reads taken out of the queue and not yet answered, with the answer each will get.
      `tell`: what the reader that has just closed will do to readerClosure. */
  datatype State = State(p: View, due: map<nat, Result>, tell: Closure)

  const START: State := State(EMPTY, map[], Unset)

  datatype Step = Lock(op: Op) | Set(i: nat) | Tell

  function Owe(due: map<nat, Result>, queue: seq<nat>, r: Result): map<nat, Result> {
    map i | i in due.Keys + (set j | j in queue) :: if i in queue then r else due[i]
  }

  function LockCloseReader(s: State): State {
    if !s.p.readOpen then s
    else s.(p := s.p.(readOpen := false, backlog := [], queue := []), due := Owe(s.due, s.p.queue, Failure("closed")),
            tell := if s.p.writeEnd.Open? then Notified else Dropped)
  }

  function LockWrite(s: State, x: string): State {
    if !Takes(s.p) then s
    else
      var p := s.p.(accepted := s.p.accepted + [x]);
      if x == "" then s.(p := p)
      else if p.queue == [] then s.(p := p.(backlog := p.backlog + [x]))
      else s.(p := p.(queue := p.queue[1..]), due := Owe(s.due, [p.queue[0]], Data(x)))
  }

  function LockCloseWriter(s: State): State {
    if !s.p.writeEnd.Open? then s
    else s.(p := s.p.(writeEnd := Closed, queue := []), due := Owe(s.due, s.p.queue, Data("")))
  }

  function LockFailWriter(s: State, m: string): State {
    if !s.p.writeEnd.Open? then s
    else s.(p := s.p.(writeEnd := Broken(m), queue := []), due := Owe(s.due, s.p.queue, Failure(m)))
  }

  predicate Enabled(s: State, x: Step) {
    match x
    case Lock(_) => true
    case Set(i) => i in s.due && i < |s.p.results|
    case Tell => !s.tell.Unset?
  }

  function DoLock(s: State, op: Op): State {
    match op
    case Read => s.(p := DoRead(s.p))
    case CloseReader => LockCloseReader(s)
    case Write(x) => LockWrite(s, x)
    case CloseWriter => LockCloseWriter(s)
    case FailWriter(m) => LockFailWriter(s, m)
  }

  function DoSet(s: State, i: nat): State
    requires i in s.due && i < |s.p.results|
  {
    State(s.p.(results := s.p.results[i := s.due[i]]), s.due - {i}, s.tell)
  }

  function Do(s: State, x: Step): State
    requires Enabled(s, x)
  {
    match x
    case Lock(op) => DoLock(s, op)
    case Set(i) => DoSet(s, i)
    case Tell => State(s.p.(closure := s.tell), s.due, Unset)
  }

  // ---------------------------------------------------------------- refinement

  /** The results with every answer that is on its way. */
  function Applied(rs: seq<Result>, due: map<nat, Result>): seq<Result> {
    seq(|rs|, (i: int) requires 0 <= i < |rs| => if i in due then due[i] else rs[i])
  }

  /** The pipe as if every promise had been set at once. */
  function Abs(s: State): View {
    s.p.(results := Applied(s.p.results, s.due), closure := if s.tell.Unset? then s.p.closure else s.tell)
  }

  predicate Fits(s: State) {
    && (forall i :: i in s.due ==> i < |s.p.results| && s.p.results[i].Pending? && !s.due[i].Pending?)
    && (!s.tell.Unset? ==> s.p.closure.Unset?)
  }

  predicate Valid(s: State) { Fits(s) && Inv(Abs(s)) }

  /** Queued reads are pending and not yet taken out. */
  lemma QueuedArePending(s: State)
    requires Valid(s)
    ensures forall j :: 0 <= j < |s.p.queue| ==>
      s.p.queue[j] < |s.p.results| && s.p.queue[j] !in s.due && s.p.results[s.p.queue[j]].Pending?
  {
    var v := Abs(s);
    forall j | 0 <= j < |s.p.queue|
      ensures s.p.queue[j] < |s.p.results| && s.p.queue[j] !in s.due && s.p.results[s.p.queue[j]].Pending?
    {
      assert v.queue[j] == Edge(v) + j;
      assert v.results[v.queue[j]].Pending?;
    }
  }

  lemma OweApplies(s: State, queue: seq<nat>, r: Result)
    requires Fits(s) && forall j :: 0 <= j < |queue| ==>
               queue[j] < |s.p.results| && queue[j] !in s.due && s.p.results[queue[j]].Pending?
    requires !r.Pending?
    ensures Applied(s.p.results, Owe(s.due, queue, r)) == Answer(Applied(s.p.results, s.due), queue, r)
    ensures forall i :: i in Owe(s.due, queue, r) ==>
              i < |s.p.results| && s.p.results[i].Pending? && !Owe(s.due, queue, r)[i].Pending?
  {
    var a, b := Applied(s.p.results, Owe(s.due, queue, r)), Answer(Applied(s.p.results, s.due), queue, r);
    forall i | 0 <= i < |a| ensures a[i] == b[i] {
      if i in queue {
        var j :| 0 <= j < |queue| && queue[j] == i;
        assert s.p.results[queue[j]].Pending?;
      }
    }
  }

  lemma AppliedMore(rs: seq<Result>, due: map<nat, Result>, r: Result)
    requires forall i :: i in due ==> i < |rs|
    ensures Applied(rs + [r], due) == Applied(rs, due) + [r]
  {
  }

  lemma ReadRefines(s: State)
    requires Valid(s)
    ensures Abs(DoLock(s, Read)) == DoRead(Abs(s)) && Fits(DoLock(s, Read))
  {
    var r := DoRead(s.p).results[|s.p.results|];
    assert DoRead(s.p).results == s.p.results + [r];
    AppliedMore(s.p.results, s.due, r);
  }

  lemma CloseReaderRefines(s: State)
    requires Valid(s)
    ensures Abs(LockCloseReader(s)) == DoCloseReader(Abs(s)) && Fits(LockCloseReader(s))
  {
    QueuedArePending(s);
    OweApplies(s, s.p.queue, Failure("closed"));
  }

  lemma WriteRefines(s: State, x: string)
    requires Valid(s)
    ensures Abs(LockWrite(s, x)) == DoWrite(Abs(s), x) && Fits(LockWrite(s, x))
  {
    if Takes(s.p) && x != "" && s.p.queue != [] {
      QueuedArePending(s);
      OweApplies(s, [s.p.queue[0]], Data(x));
    }
  }

  lemma CloseWriterRefines(s: State)
    requires Valid(s)
    ensures Abs(LockCloseWriter(s)) == DoCloseWriter(Abs(s)) && Fits(LockCloseWriter(s))
  {
    QueuedArePending(s);
    OweApplies(s, s.p.queue, Data(""));
  }

  lemma FailWriterRefines(s: State, m: string)
    requires Valid(s)
    ensures Abs(LockFailWriter(s, m)) == DoFailWriter(Abs(s), m) && Fits(LockFailWriter(s, m))
  {
    QueuedArePending(s);
    OweApplies(s, s.p.queue, Failure(m));
  }

  lemma SetRefines(s: State, i: nat)
    requires Valid(s) && Enabled(s, Set(i))
    ensures Abs(DoSet(s, i)) == Abs(s) && Fits(DoSet(s, i))
  {
    assert Applied(DoSet(s, i).p.results, s.due - {i}) == Applied(s.p.results, s.due);
  }

  /** A locked block does what its operation does, and setting a promise changes nothing of it. */
  lemma StepRefines(s: State, x: Step)
    requires Valid(s) && Enabled(s, x)
    ensures Abs(Do(s, x)) == if x.Lock? then PipeModel.Do(Abs(s), x.op) else Abs(s)
    ensures Valid(Do(s, x))
  {
    match x {
      case Lock(op) =>
        match op {
          case Read => ReadRefines(s);
          case CloseReader => CloseReaderRefines(s);
          case Write(w) => WriteRefines(s, w);
          case CloseWriter => CloseWriterRefines(s);
          case FailWriter(m) => FailWriterRefines(s, m);
        }
        InvKept(Abs(s), op);
      case Set(i) => SetRefines(s, i);
      case Tell =>
    }
  }

  // ---------------------------------------------------------------- runs

  datatype Outcome = Stuck | At(s: State)

  function Exec(run: seq<Step>): Outcome {
    if run == [] then At(START)
    else
      var before := Exec(run[..|run| - 1]);
      if before.At? && Enabled(before.s, run[|run| - 1]) then At(Do(before.s, run[|run| - 1])) else Stuck
  }

  /** The locked blocks of a run, in order. */
  function Locks(run: seq<Step>): seq<Op> {
    if run == [] then []
    else Locks(run[..|run| - 1]) + if run[|run| - 1].Lock? then [run[|run| - 1].op] else []
  }

  /** Every interleaved run is a run of the pipe that answers at once, with some answers still on their way. */
  lemma {:induction false} RefinesAtomic(run: seq<Step>)
    requires Exec(run).At?
    ensures Abs(Exec(run).s) == PipeModel.Exec(EMPTY, Locks(run)) && Valid(Exec(run).s)
  {
    if run == [] {
      assert Applied([], map[]) == [];
    } else {
      var before, x := run[..|run| - 1], run[|run| - 1];
      RefinesAtomic(before);
      StepRefines(Exec(before).s, x);
      if x.Lock? {
        var ops := Locks(before);
        assert (ops + [x.op])[..|ops|] == ops;
      } else {
        assert Locks(run) == Locks(before);
      }
    }
  }

  /** Reads and writes are never both queued, reads are queued only while both ends are open, and a read that is
      pending is queued or has its answer on the way. */
  lemma NeverBothQueued(run: seq<Step>, i: nat)
    requires Exec(run).At?
    ensures var s := Exec(run).s;
      && (s.p.queue == [] || s.p.backlog == [])
      && (s.p.queue != [] ==> s.p.readOpen && s.p.writeEnd.Open?)
      && (i < |s.p.results| && s.p.results[i].Pending? ==> i in s.p.queue || i in s.due)
  {
    RefinesAtomic(run);
    var s := Exec(run).s;
    var v := Abs(s);
    if i < |s.p.results| && s.p.results[i].Pending? && i !in s.due {
      assert v.results[i].Pending?;
      assert v.queue[i - Edge(v)] == i;
    }
  }

  /** At every instant, a read that has data has the write whose place among the accepted non-empty writes is its
      place among the reads that have got data or are about to. */
  lemma KthReadGetsKthWrite(run: seq<Step>, i: nat)
    requires Exec(run).At? && i < |Exec(run).s.p.results| && IsData(Exec(run).s.p.results[i])
    ensures var s := Exec(run).s;
            var k := |Got(Applied(s.p.results, s.due)[..i])|;
            k < |NonEmpty(s.p.accepted)| && s.p.results[i].s == NonEmpty(s.p.accepted)[k]
  {
    RefinesAtomic(run);
    PipeModel.KthReadGetsKthWrite(Locks(run), i);
  }

  lemma {:induction false} GotLess(a: seq<Result>, b: seq<Result>)
    requires |a| == |b| && forall i :: 0 <= i < |a| ==> a[i] == b[i] || !IsData(a[i])
    ensures |Got(a)| <= |Got(b)|
    ensures |Got(a)| == |Got(b)| <==> forall i :: 0 <= i < |a| ==> (IsData(a[i]) <==> IsData(b[i]))
    ensures |Got(a)| == |Got(b)| ==> Got(a) == Got(b)
  {
    if a != [] {
      var n := |a| - 1;
      GotLess(a[..n], b[..n]);
      assert a[n] == b[n] || !IsData(a[n]);
    }
  }

  /** Whoever sees end-of-file comes after reads that together have, or are about to have, every accepted byte
      in order; and they have it already if and only if no data for an earlier read is still on its way. */
  lemma DrainedBeforeEof(run: seq<Step>, i: nat)
    requires Exec(run).At? && i < |Exec(run).s.p.results| && Exec(run).s.p.results[i] == Data("")
    ensures var s := Exec(run).s;
      && s.p.writeEnd.Closed?
      && Concat(Got(Applied(s.p.results, s.due)[..i])) == Concat(s.p.accepted)
      && (Got(s.p.results[..i]) == NonEmpty(s.p.accepted) <==>
          forall j :: 0 <= j < i && j in s.due ==> !IsData(s.due[j]))
  {
    RefinesAtomic(run);
    PipeModel.DrainedBeforeEof(Locks(run), i);
    var s := Exec(run).s;
    var a, b := s.p.results[..i], Applied(s.p.results, s.due)[..i];
    assert Honest(Abs(s), i);
    assert forall j :: 0 <= j < i ==> a[j] == s.p.results[j] && b[j] == if j in s.due then s.due[j] else a[j];
    GotLess(a, b);
  }

  /** A write answers the first read and is slow to set it; another writer closes, and the second read sees
      end-of-file while the first is still pending. */
  lemma EofOvertakes() returns (run: seq<Step>)
    ensures Exec(run).At?
    ensures var rs := Exec(run).s.p.results; |rs| == 2 && rs[0].Pending? && rs[1] == Data("")
  {
    var a, b, c := Lock(Read), Lock(Write("a")), Lock(CloseWriter);
    var s1 := DoLock(START, Read);
    var s2 := LockWrite(s1, "a");
    var s3 := LockCloseWriter(s2);
    assert [a][..0] == [] && Exec([a]) == At(s1);
    assert [a, b][..1] == [a] && Exec([a, b]) == At(s2);
    assert [a, b, c][..2] == [a, b] && Exec([a, b, c]) == At(s3);
    run := [a, b, c, a];
    assert run[..3] == [a, b, c] && Exec(run) == At(DoLock(s3, Read));
  }

  /** A settled read stays as it is. */
  lemma ResultsAreFinal(s: State, x: Step, i: nat)
    requires Valid(s) && Enabled(s, x) && i < |s.p.results| && !s.p.results[i].Pending?
    ensures i < |Do(s, x).p.results| && Do(s, x).p.results[i] == s.p.results[i]
  {
    if x == Lock(Read) { assert DoRead(s.p).results[..|s.p.results|] == s.p.results; }
  }

  /** The writer is told, or about to be, exactly when the reader closed while the write end was open. */
  lemma NotifiedIff(run: seq<Step>)
    requires Exec(run).At?
    ensures Exec(run).s.p.closure.Notified? || Exec(run).s.tell.Notified? <==>
            exists n :: 0 <= n < |Locks(run)| && ClosesFirst(Locks(run), n)
  {
    RefinesAtomic(run);
    PipeModel.NotifiedIff(Locks(run));
  }

  /** In every interleaving the accepted writes are those whose locked block found both ends open, in order. */
  lemma AcceptedAreWritten(run: seq<Step>)
    requires Exec(run).At?
    ensures Exec(run).s.p.accepted == Written(Locks(run))
  {
    RefinesAtomic(run);
    PipeModel.AcceptedAreWritten(Locks(run));
  }

  /** In every interleaving, while the read end is open a failure of the write end reaches every read that gets no data,
      with its message, and a close reaches it as end-of-file; or it is on its way. */
  lemma EndReachesReaders(run: seq<Step>, i: nat)
    requires Exec(run).At? && i < |Exec(run).s.p.results| && Exec(run).s.p.readOpen
    requires !IsData(Applied(Exec(run).s.p.results, Exec(run).s.due)[i])
    ensures var r := Applied(Exec(run).s.p.results, Exec(run).s.due)[i];
      match EndOf(Locks(run))
      case Open => r.Pending?
      case Closed => r == Data("")
      case Broken(m) => r == Failure(m)
  {
    RefinesAtomic(run);
    PipeModel.EndReachesReaders(Locks(run), i);
  }
}
