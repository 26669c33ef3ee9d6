/**
  The two-ended pipe: what each operation does to its state, and what holds over every run.

  The promise behind each read() is a slot of `results`, in the order of the calls.
 */
module PipeModel {

  datatype WriteEnd = Open | Closed | Broken(message: string)

  /** `Data("")` is end-of-file. */
  datatype Result = Pending | Data(s: string) | Failure(message: string)

  datatype Closure = Unset | Notified | Dropped

  /** `accepted` is auxiliary: every write that was answered with true. */
  datatype View = View(readOpen: bool, writeEnd: WriteEnd, queue: seq<nat>, backlog: seq<string>,
                       results: seq<Result>, closure: Closure, accepted: seq<string>)

  const EMPTY: View := View(true, Open, [], [], [], Unset, [])

  datatype Op = Read | CloseReader | Write(s: string) | CloseWriter | FailWriter(message: string)

  // ---------------------------------------------------------------- operations

  /** The reads in `queue` that are still pending are answered with `r`. */
  function Answer(results: seq<Result>, queue: seq<nat>, r: Result): seq<Result> {
    seq(|results|, (i: int) requires 0 <= i < |results| =>
        if i in queue && results[i].Pending? then r else results[i])
  }

  function DoRead(v: View): View {
    if !v.readOpen then v.(results := v.results + [Failure("closed")])
    else if v.backlog != [] then v.(results := v.results + [Data(v.backlog[0])], backlog := v.backlog[1..])
    else match v.writeEnd
      case Closed => v.(results := v.results + [Data("")])
      case Broken(m) => v.(results := v.results + [Failure(m)])
      case Open => v.(results := v.results + [Pending], queue := v.queue + [|v.results|])
  }

  function DoCloseReader(v: View): View {
    if !v.readOpen then v
    else v.(readOpen := false, backlog := [], queue := [], results := Answer(v.results, v.queue, Failure("closed")),
            closure := if v.writeEnd.Open? then Notified else Dropped)
  }

  predicate Takes(v: View) { v.readOpen && v.writeEnd.Open? }

  function DoWrite(v: View, s: string): View {
    if !Takes(v) then v
    else
      var w := v.(accepted := v.accepted + [s]);
      if s == "" then w
      else if v.queue == [] then w.(backlog := v.backlog + [s])
      else w.(results := Answer(v.results, [v.queue[0]], Data(s)), queue := v.queue[1..])
  }

  function DoCloseWriter(v: View): View {
    if !v.writeEnd.Open? then v
    else v.(writeEnd := Closed, queue := [], results := Answer(v.results, v.queue, Data("")))
  }

  function DoFailWriter(v: View, m: string): View {
    if !v.writeEnd.Open? then v
    else v.(writeEnd := Broken(m), queue := [], results := Answer(v.results, v.queue, Failure(m)))
  }

  function Do(v: View, op: Op): View {
    match op
    case Read => DoRead(v)
    case CloseReader => DoCloseReader(v)
    case Write(s) => DoWrite(v, s)
    case CloseWriter => DoCloseWriter(v)
    case FailWriter(m) => DoFailWriter(v, m)
  }

  function Exec(v: View, run: seq<Op>): View
    decreases |run|
  {
    if run == [] then v else Do(Exec(v, run[..|run| - 1]), run[|run| - 1])
  }

  // ---------------------------------------------------------------- what readers got

  /** The data among the first results, without end-of-file marks and failures. */
  function Got(rs: seq<Result>): seq<string> {
    if rs == [] then []
    else Got(rs[..|rs| - 1]) + (if rs[|rs| - 1].Data? && rs[|rs| - 1].s != "" then [rs[|rs| - 1].s] else [])
  }

  function NonEmpty(ws: seq<string>): seq<string> {
    if ws == [] then []
    else NonEmpty(ws[..|ws| - 1]) + (if ws[|ws| - 1] != "" then [ws[|ws| - 1]] else [])
  }

  function Concat(ws: seq<string>): string {
    if ws == [] then "" else Concat(ws[..|ws| - 1]) + ws[|ws| - 1]
  }

  lemma {:induction false} ConcatNonEmpty(ws: seq<string>)
    ensures Concat(NonEmpty(ws)) == Concat(ws)
  {
    if ws != [] {
      var n := |ws| - 1;
      ConcatNonEmpty(ws[..n]);
      if ws[n] != "" {
        var k := NonEmpty(ws[..n]);
        assert (k + [ws[n]])[..|k|] == k;
      } else {
        assert NonEmpty(ws) == NonEmpty(ws[..n]);
      }
    }
  }

  lemma {:induction false} GotApp(a: seq<Result>, b: seq<Result>)
    ensures Got(a + b) == Got(a) + Got(b)
  {
    if b == [] {
      assert a + b == a;
    } else {
      assert (a + b)[..|a + b| - 1] == a + b[..|b| - 1];
      GotApp(a, b[..|b| - 1]);
    }
  }

  predicate IsData(r: Result) { r.Data? && r.s != "" }

  lemma {:induction false} GotNothing(rs: seq<Result>)
    requires forall i :: 0 <= i < |rs| ==> !IsData(rs[i])
    ensures Got(rs) == []
  {
    if rs != [] {
      assert !IsData(rs[|rs| - 1]);
      GotNothing(rs[..|rs| - 1]);
    }
  }

  lemma {:induction false} GotSame(a: seq<Result>, b: seq<Result>)
    requires |a| == |b| && forall i :: 0 <= i < |a| ==> a[i] == b[i] || (!IsData(a[i]) && !IsData(b[i]))
    ensures Got(a) == Got(b)
  {
    if a != [] {
      var n := |a| - 1;
      assert a[n] == b[n] || (!IsData(a[n]) && !IsData(b[n]));
      GotSame(a[..n], b[..n]);
    }
  }

  // ---------------------------------------------------------------- invariant

  /** Where the pending reads begin. */
  function Edge(v: View): int { |v.results| - |v.queue| }

  predicate Queues(v: View) {
    && (v.queue == [] || v.backlog == [])
    && (v.queue != [] ==> Takes(v))
    && (!v.readOpen ==> v.backlog == [])
    && |v.queue| <= |v.results|
    && (forall j :: 0 <= j < |v.queue| ==> v.queue[j] == Edge(v) + j)
    && (forall i :: 0 <= i < |v.results| ==> (v.results[i].Pending? <==> i >= Edge(v)))
    && (forall j :: 0 <= j < |v.backlog| ==> v.backlog[j] != "")
    && (v.closure.Unset? <==> v.readOpen)
    && (v.closure.Dropped? ==> !v.writeEnd.Open?)
  }

  /** Nothing is lost, invented or reordered between writers and readers. */
  predicate Flow(v: View) {
    && Got(v.results) <= NonEmpty(v.accepted)
    && (v.readOpen ==> Got(v.results) + v.backlog == NonEmpty(v.accepted))
  }

  /** What result `i` says about the pipe. */
  predicate Honest(v: View, i: nat)
    requires i < |v.results|
  {
    var r := v.results[i];
    && (r == Data("") ==> v.writeEnd.Closed? && Got(v.results[..i]) == NonEmpty(v.accepted))
    && (r.Failure? ==> || (!v.readOpen && r.message == "closed")
                       || (v.writeEnd == Broken(r.message) && Got(v.results[..i]) == NonEmpty(v.accepted)))
  }

  predicate Inv(v: View) { Queues(v) && Flow(v) && forall i: nat :: i < |v.results| ==> Honest(v, i) }

  lemma AppendHonest(v: View, w: View, r: Result)
    requires Inv(v) && w.results == v.results + [r] && w.accepted == v.accepted
    requires w.writeEnd == v.writeEnd && w.readOpen == v.readOpen
    requires r == Data("") ==> v.writeEnd.Closed? && Got(v.results) == NonEmpty(v.accepted)
    requires r.Failure? ==> || (!v.readOpen && r.message == "closed")
                            || (v.writeEnd == Broken(r.message) && Got(v.results) == NonEmpty(v.accepted))
    ensures forall i: nat :: i < |w.results| ==> Honest(w, i)
  {
    forall i: nat | i < |w.results| ensures Honest(w, i) {
      if i < |v.results| {
        assert w.results[..i] == v.results[..i];
        assert Honest(v, i);
      } else {
        assert w.results[..i] == v.results;
      }
    }
  }

  lemma GotOneMore(rs: seq<Result>, r: Result)
    ensures Got(rs + [r]) == if IsData(r) then Got(rs) + [r.s] else Got(rs)
  {
    assert (rs + [r])[..|rs|] == rs;
  }

  lemma ReadQueues(v: View)
    requires Queues(v)
    ensures Queues(DoRead(v))
  {
    var w := DoRead(v);
    assert w.results[..|v.results|] == v.results;
  }

  lemma ReadFlow(v: View)
    requires Queues(v) && Flow(v)
    ensures Flow(DoRead(v))
  {
    if v.readOpen && v.backlog != [] {
      var w := v.backlog[0];
      GotOneMore(v.results, Data(w));
      assert v.backlog == [w] + v.backlog[1..];
      assert Got(v.results) + ([w] + v.backlog[1..]) == Got(v.results) + [w] + v.backlog[1..];
    } else {
      var r := DoRead(v).results[|v.results|];
      assert DoRead(v).results == v.results + [r] && !IsData(r);
      GotOneMore(v.results, r);
    }
  }

  lemma ReadKeeps(v: View)
    requires Inv(v)
    ensures Inv(DoRead(v))
  {
    ReadQueues(v);
    ReadFlow(v);
    AppendHonest(v, DoRead(v), DoRead(v).results[|v.results|]);
  }

  /** All pending reads are answered alike, by something that is not data. */
  lemma AnswerAll(v: View, r: Result, i: nat)
    requires Queues(v) && !r.Pending? && !IsData(r) && i <= |v.results|
    ensures var rs := Answer(v.results, v.queue, r);
            && |rs| == |v.results|
            && Got(rs[..i]) == Got(v.results[..i])
            && (i < |rs| ==> rs[i] == if v.results[i].Pending? then r else v.results[i])
            && (i < |rs| && v.results[i].Pending? ==> Got(v.results[..i]) == Got(v.results))
  {
    var rs := Answer(v.results, v.queue, r);
    forall j | 0 <= j < |rs| ensures rs[j] == if v.results[j].Pending? then r else v.results[j] {
      if j >= Edge(v) { assert v.queue[j - Edge(v)] == j; }
    }
    GotSame(rs[..i], v.results[..i]);
    if i < |rs| && v.results[i].Pending? {
      assert v.results == v.results[..i] + v.results[i..];
      GotApp(v.results[..i], v.results[i..]);
      GotNothing(v.results[i..]);
    }
  }

  lemma AnswerKeeps(v: View, w: View, r: Result)
    requires Inv(v) && !r.Pending? && !IsData(r) && w.results == Answer(v.results, v.queue, r)
    requires w.queue == [] && w.accepted == v.accepted
    requires v.writeEnd == w.writeEnd || v.writeEnd.Open?
    requires v.readOpen || !w.readOpen
    requires if r.Data? then w.writeEnd.Closed?
             else (!w.readOpen && r.message == "closed") || w.writeEnd == Broken(r.message)
    ensures Got(w.results) == Got(v.results)
    ensures forall i: nat :: i < |w.results| ==> Honest(w, i) && !w.results[i].Pending?
  {
    forall i: nat | i < |w.results| ensures Honest(w, i) && !w.results[i].Pending? {
      AnswerAll(v, r, i);
      assert Honest(v, i);
    }
    AnswerAll(v, r, |v.results|);
    assert w.results[..|v.results|] == w.results && v.results[..|v.results|] == v.results;
  }

  lemma CloseReaderKeeps(v: View)
    requires Inv(v)
    ensures Inv(DoCloseReader(v))
  {
    if v.readOpen { AnswerKeeps(v, DoCloseReader(v), Failure("closed")); }
  }

  lemma CloseWriterKeeps(v: View)
    requires Inv(v)
    ensures Inv(DoCloseWriter(v))
  {
    if v.writeEnd.Open? { AnswerKeeps(v, DoCloseWriter(v), Data("")); }
  }

  lemma FailWriterKeeps(v: View, m: string)
    requires Inv(v)
    ensures Inv(DoFailWriter(v, m))
  {
    if v.writeEnd.Open? { AnswerKeeps(v, DoFailWriter(v, m), Failure(m)); }
  }

  /** Data goes to the first pending read; the reads behind it are still pending. */
  lemma GotAt(rs: seq<Result>, e: nat, s: string)
    requires e < |rs| && s != "" && forall i :: e <= i < |rs| ==> rs[i].Pending?
    ensures Got(rs[e := Data(s)]) == Got(rs) + [s]
  {
    var front, back, tail := rs[..e], rs[e..], rs[e + 1..];
    GotApp(front, back);
    GotNothing(back);
    assert rs == front + back;
    GotNothing(tail);
    GotOneMore(front, Data(s));
    GotApp(front + [Data(s)], tail);
    assert rs[e := Data(s)] == front + [Data(s)] + tail;
  }

  lemma WriteGot(v: View, s: string)
    requires Inv(v) && Takes(v) && s != "" && v.queue != []
    ensures Got(DoWrite(v, s).results) == Got(v.results) + [s]
  {
    var e := Edge(v);
    assert v.queue[0] == e;
    assert DoWrite(v, s).results == v.results[e := Data(s)];
    GotAt(v.results, e, s);
  }

  lemma WriteHonest(v: View, s: string, i: nat)
    requires Inv(v) && Takes(v) && i < |v.results|
    ensures var w := DoWrite(v, s); |w.results| == |v.results| && Honest(w, i)
  {
    assert Honest(v, i);
  }

  lemma WriteQueues(v: View, s: string)
    requires Queues(v) && Takes(v)
    ensures Queues(DoWrite(v, s))
  {
    var w := DoWrite(v, s);
    if s != "" && v.queue != [] {
      assert v.queue[0] == Edge(v);
      assert w.results == v.results[Edge(v) := Data(s)];
    }
  }

  lemma WriteKeeps(v: View, s: string)
    requires Inv(v)
    ensures Inv(DoWrite(v, s))
  {
    if Takes(v) {
      var w := DoWrite(v, s);
      assert NonEmpty(w.accepted) == NonEmpty(v.accepted) + (if s != "" then [s] else []) by {
        assert w.accepted[..|v.accepted|] == v.accepted;
      }
      if s != "" && v.queue != [] { WriteGot(v, s); }
      WriteQueues(v, s);
      forall i: nat | i < |w.results| ensures Honest(w, i) {
        WriteHonest(v, s, i);
      }
    }
  }

  lemma InvKept(v: View, op: Op)
    requires Inv(v)
    ensures Inv(Do(v, op))
  {
    match op {
      case Read => ReadKeeps(v);
      case CloseReader => CloseReaderKeeps(v);
      case Write(s) => WriteKeeps(v, s);
      case CloseWriter => CloseWriterKeeps(v);
      case FailWriter(m) => FailWriterKeeps(v, m);
    }
  }

  lemma {:induction false} InvAlways(run: seq<Op>)
    ensures Inv(Exec(EMPTY, run))
    decreases |run|
  {
    if run != [] {
      InvAlways(run[..|run| - 1]);
      InvKept(Exec(EMPTY, run[..|run| - 1]), run[|run| - 1]);
    }
  }

  // ---------------------------------------------------------------- promises of the pipe

  /** Reads and writes are never both queued, and reads wait only while both ends are open. */
  lemma NeverBothQueued(run: seq<Op>)
    ensures var v := Exec(EMPTY, run);
            && (v.queue == [] || v.backlog == [])
            && ((exists i :: 0 <= i < |v.results| && v.results[i].Pending?) ==> v.readOpen && v.writeEnd.Open?)
  {
    InvAlways(run);
  }

  /** The k-th read that gets data gets the k-th non-empty write that was accepted. */
  lemma KthReadGetsKthWrite(run: seq<Op>, i: nat)
    requires i < |Exec(EMPTY, run).results| && IsData(Exec(EMPTY, run).results[i])
    ensures var v := Exec(EMPTY, run);
            var k := |Got(v.results[..i])|;
            k < |NonEmpty(v.accepted)| && v.results[i].s == NonEmpty(v.accepted)[k]
  {
    InvAlways(run);
    var v := Exec(EMPTY, run);
    var a, b := v.results[..i + 1], v.results[i + 1..];
    assert v.results == a + b;
    GotApp(a, b);
    assert a[..i] == v.results[..i];
    assert Got(a) == Got(v.results[..i]) + [v.results[i].s];
    assert Got(v.results)[|Got(v.results[..i])|] == v.results[i].s;
  }

  /** Whoever sees end-of-file comes after readers that together got every accepted byte, in order. */
  lemma DrainedBeforeEof(run: seq<Op>, i: nat)
    requires i < |Exec(EMPTY, run).results| && Exec(EMPTY, run).results[i] == Data("")
    ensures var v := Exec(EMPTY, run); v.writeEnd.Closed? && Concat(Got(v.results[..i])) == Concat(v.accepted)
  {
    InvAlways(run);
    assert Honest(Exec(EMPTY, run), i);
    ConcatNonEmpty(Exec(EMPTY, run).accepted);
  }

  /** A settled read stays as it is. */
  lemma ResultsAreFinal(v: View, op: Op, i: nat)
    requires Inv(v) && i < |v.results| && !v.results[i].Pending?
    ensures i < |Do(v, op).results| && Do(v, op).results[i] == v.results[i]
  {
    if op.Read? { assert (v.results + [Pending])[i] == v.results[i]; }
  }

  predicate ClosesFirst(run: seq<Op>, n: nat)
    requires n < |run|
  {
    run[n].CloseReader? && Takes(Exec(EMPTY, run[..n]))
  }

  lemma NotifiedStep(v: View, op: Op)
    requires Inv(v)
    ensures Do(v, op).closure.Notified? <==> v.closure.Notified? || (op.CloseReader? && Takes(v))
  {
  }

  /** The writer is told that the reader closed exactly when the reader closed while the write end was open. */
  lemma {:induction false} NotifiedIff(run: seq<Op>)
    ensures Exec(EMPTY, run).closure.Notified? <==> Sometime(run)
    decreases |run|
  {
    if run != [] {
      var m := |run| - 1;
      NotifiedIff(run[..m]);
      InvAlways(run[..m]);
      NotifiedStep(Exec(EMPTY, run[..m]), run[m]);
      SometimeLast(run);
    }
  }

  predicate Sometime(run: seq<Op>) { exists n :: 0 <= n < |run| && ClosesFirst(run, n) }

  lemma SometimeLast(run: seq<Op>)
    requires run != []
    ensures Sometime(run) <==> Sometime(run[..|run| - 1]) || ClosesFirst(run, |run| - 1)
  {
    var m := |run| - 1;
    var before := run[..m];
    EarlierSame(run);
    if Sometime(before) {
      var n :| 0 <= n < |before| && ClosesFirst(before, n);
      assert ClosesFirst(run, n);
    }
    if Sometime(run) {
      var n :| 0 <= n < |run| && ClosesFirst(run, n);
      assert n < m ==> ClosesFirst(before, n);
    }
  }

  lemma EarlierSame(run: seq<Op>)
    requires run != []
    ensures forall n :: 0 <= n < |run| - 1 ==> (ClosesFirst(run, n) <==> ClosesFirst(run[..|run| - 1], n))
  {
    var before := run[..|run| - 1];
    forall n | 0 <= n < |run| - 1 ensures ClosesFirst(run, n) <==> ClosesFirst(before, n) {
      assert before[..n] == run[..n];
    }
  }

  // ---------------------------------------------------------------- told from the calls alone

  /** The writes made while both ends were open. */
  function Written(run: seq<Op>): seq<string> {
    if run == [] then []
    else
      var n := |run| - 1;
      Written(run[..n]) + if run[n].Write? && BothOpen(run[..n]) then [run[n].s] else []
  }

  predicate ClosesWriter(op: Op) { op.CloseWriter? || op.FailWriter? }

  /** Nobody has closed or failed either end. */
  predicate BothOpen(run: seq<Op>) { forall op :: op in run ==> !op.CloseReader? && !ClosesWriter(op) }

  /** How the write end stands: the first call that closed or failed it decides. */
  function EndOf(run: seq<Op>): WriteEnd {
    if run == [] then Open
    else
      var before, op := EndOf(run[..|run| - 1]), run[|run| - 1];
      if !before.Open? then before
      else if op.CloseWriter? then Closed else if op.FailWriter? then Broken(op.message) else Open
  }

  lemma EndsStep(v: View, op: Op)
    ensures Do(v, op).readOpen == (v.readOpen && !op.CloseReader?)
    ensures Do(v, op).writeEnd ==
      if !v.writeEnd.Open? then v.writeEnd
      else if op.CloseWriter? then Closed else if op.FailWriter? then Broken(op.message) else Open
  {
  }

  lemma InLast(run: seq<Op>)
    requires run != []
    ensures forall op :: op in run <==> op in run[..|run| - 1] || op == run[|run| - 1]
  {
    assert run == run[..|run| - 1] + [run[|run| - 1]];
  }

  lemma {:induction false} EndsAre(run: seq<Op>)
    ensures Exec(EMPTY, run).readOpen <==> forall op :: op in run ==> !op.CloseReader?
    ensures Exec(EMPTY, run).writeEnd == EndOf(run)
    ensures EndOf(run).Open? <==> forall op :: op in run ==> !ClosesWriter(op)
    decreases |run|
  {
    if run != [] {
      var n := |run| - 1;
      EndsAre(run[..n]);
      EndsStep(Exec(EMPTY, run[..n]), run[n]);
      InLast(run);
      var before := run[..n];
      assert (forall op :: op in run ==> !op.CloseReader?) <==>
        (forall op :: op in before ==> !op.CloseReader?) && !run[n].CloseReader?;
      assert (forall op :: op in run ==> !ClosesWriter(op)) <==>
        (forall op :: op in before ==> !ClosesWriter(op)) && !ClosesWriter(run[n]);
    }
  }

  lemma AcceptStep(v: View, op: Op)
    ensures Do(v, op).accepted == v.accepted + if op.Write? && Takes(v) then [op.s] else []
  {
  }

  /** In every run the accepted writes are those made while both ends were open, in order, and no other. */
  lemma {:induction false} AcceptedAreWritten(run: seq<Op>)
    ensures Exec(EMPTY, run).accepted == Written(run)
    decreases |run|
  {
    if run != [] {
      var n := |run| - 1;
      AcceptedAreWritten(run[..n]);
      EndsAre(run[..n]);
      AcceptStep(Exec(EMPTY, run[..n]), run[n]);
    }
  }

  /** In every run, while the read end is open a failure of the write end reaches every read that gets no data,
      pending or later, with its message, and a close reaches it as end-of-file. */
  lemma {:induction false} EndReachesReaders(run: seq<Op>, i: nat)
    requires i < |Exec(EMPTY, run).results| && Exec(EMPTY, run).readOpen && !IsData(Exec(EMPTY, run).results[i])
    ensures var r := Exec(EMPTY, run).results[i];
      match EndOf(run)
      case Open => r.Pending?
      case Closed => r == Data("")
      case Broken(m) => r == Failure(m)
  {
    InvAlways(run);
    EndsAre(run);
    assert Honest(Exec(EMPTY, run), i);
  }
}
