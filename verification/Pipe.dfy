/** The pipe as an object: queues popped and swapped under the lock, promises set one by one after it. */
module PipeCode {
  import opened PipeModel
  import opened PipeSteps

  /** Whose turn it is: the reader in readAll(), or somebody else at either end. */
  datatype Turn = Mine | Theirs(x: Step)

  datatype All = Text(s: string) | Failed(message: string) | Unfinished(sofar: string)

  /** How many turns at the end are the reader's own. */
  function Tail(schedule: seq<Turn>): nat {
    if schedule == [] || schedule[|schedule| - 1].Theirs? then 0 else 1 + Tail(schedule[..|schedule| - 1])
  }

  class Pipe {
    var readOpen: bool
    var writeEnd: WriteEnd
    var queue: seq<nat>
    var backlog: seq<string>
    var results: seq<Result>
    var closure: Closure
    // What callers that have left the lock still have to do.
    var due: map<nat, Result>
    var tell: Closure
    ghost var accepted: seq<string>

    ghost function V(): State
      reads this
    {
      State(View(readOpen, writeEnd, queue, backlog, results, closure, accepted), due, tell)
    }

    constructor ()
      ensures V() == START && Valid(V())
    {
      readOpen, writeEnd, queue, backlog, results, closure := true, Open, [], [], [], Unset;
      due, tell, accepted := map[], Unset, [];
      new;
      RefinesAtomic([]);
    }

    // ---------------------------------------------------------------- locked blocks

    /** Reader::read() */
    method Read() returns (k: nat)
      requires Valid(V())
      modifies this
      ensures V() == DoLock(old(V()), PipeModel.Read) && Valid(V())
      ensures k == |old(results)| == |results| - 1
    {
      ghost var was := V();
      k := |results|;
      if !readOpen {
        results := results + [Failure("closed")];
      } else if backlog != [] {
        results := results + [Data(backlog[0])];
        backlog := backlog[1..];
      } else if writeEnd.Closed? {
        results := results + [Data("")];
      } else if writeEnd.Broken? {
        results := results + [Failure(writeEnd.message)];
      } else {
        results := results + [Pending];
        queue := queue + [k];
      }
      StepRefines(was, Lock(PipeModel.Read));
    }

    method TakeReader() returns (closed: bool)
      requires Valid(V())
      modifies this
      ensures V() == LockCloseReader(old(V())) && Valid(V())
      ensures closed == old(readOpen)
    {
      ghost var was := V();
      closed := readOpen;
      if closed {
        while backlog != []
          invariant V() == was.(p := was.p.(backlog := backlog))
          decreases |backlog|
        {
          backlog := backlog[1..];
        }
        due := Owe(due, queue, Failure("closed"));
        queue, readOpen := [], false;
        tell := if writeEnd.Open? then Notified else Dropped;
      }
      StepRefines(was, Lock(PipeModel.CloseReader));
    }

    method TakeWrite(s: string) returns (written: bool)
      requires Valid(V())
      modifies this
      ensures V() == LockWrite(old(V()), s) && Valid(V())
      ensures written == Takes(old(V()).p)
    {
      ghost var was := V();
      written := false;
      if writeEnd.Open? && readOpen {
        if s != "" {
          if queue == [] {
            backlog := backlog + [s];
          } else {
            due := Owe(due, [queue[0]], Data(s));
            queue := queue[1..];
          }
        }
        accepted := accepted + [s];
        written := true;
      }
      StepRefines(was, Lock(PipeModel.Write(s)));
    }

    method TakeWriter() returns (closed: bool)
      requires Valid(V())
      modifies this
      ensures V() == LockCloseWriter(old(V())) && Valid(V())
      ensures closed == old(writeEnd).Open?
    {
      ghost var was := V();
      closed := writeEnd.Open?;
      if closed {
        due := Owe(due, queue, Data(""));
        queue, writeEnd := [], Closed;
      }
      StepRefines(was, Lock(PipeModel.CloseWriter));
    }

    method TakeFailure(m: string) returns (failed: bool)
      requires Valid(V())
      modifies this
      ensures V() == LockFailWriter(old(V()), m) && Valid(V())
      ensures failed == old(writeEnd).Open?
    {
      ghost var was := V();
      failed := writeEnd.Open?;
      if failed {
        due := Owe(due, queue, Failure(m));
        queue, writeEnd := [], Broken(m);
      }
      StepRefines(was, Lock(PipeModel.FailWriter(m)));
    }

    // ---------------------------------------------------------------- after the lock

    method SetOne(i: nat)
      requires Valid(V()) && i in due
      modifies this`results, this`due
      ensures V() == DoSet(old(V()), i) && Valid(V())
    {
      ghost var was := V();
      results := results[i := due[i]];
      due := due - {i};
      StepRefines(was, Set(i));
    }

    method TellWriter()
      requires Valid(V())
      modifies this`closure, this`tell
      ensures Valid(V()) && Abs(V()) == old(Abs(V())) && tell.Unset?
    {
      ghost var was := V();
      if !tell.Unset? {
        closure, tell := tell, Unset;
        StepRefines(was, PipeSteps.Tell);
      }
    }

    /** Sets the promises taken out of the queue, in order. */
    method Settle(waiting: seq<nat>)
      requires Valid(V())
      modifies this`results, this`due
      ensures Valid(V()) && Abs(V()) == old(Abs(V()))
      ensures due == old(due) - (set j | j in waiting)
    {
      assert due == old(due) - (set j | j in waiting[..0]);
      for n := 0 to |waiting|
        invariant Valid(V()) && Abs(V()) == old(Abs(V()))
        invariant due == old(due) - (set j | j in waiting[..n])
      {
        assert waiting[..n + 1] == waiting[..n] + [waiting[n]];
        if waiting[n] in due {
          SetRefines(V(), waiting[n]);
          SetOne(waiting[n]);
        }
      }
      assert waiting[..|waiting|] == waiting;
    }

    // ---------------------------------------------------------------- whole calls

    /** Reader::close() */
    method CloseReader() returns (closed: bool)
      requires Valid(V())
      modifies this
      ensures Valid(V()) && Abs(V()) == DoCloseReader(old(Abs(V()))) && due == old(due)
      ensures closed == old(readOpen) && (closed ==> tell.Unset?)
    {
      QueuedArePending(V());
      CloseReaderRefines(V());
      var waiting := queue;
      closed := TakeReader();
      if closed {
        PaidBack(old(due), waiting, Failure("closed"));
        Settle(waiting);
        TellWriter();
      }
    }

    /** Writer::write() */
    method Write(s: string) returns (written: bool)
      requires Valid(V())
      modifies this
      ensures Valid(V()) && Abs(V()) == DoWrite(old(Abs(V())), s) && due == old(due)
      ensures written == Takes(old(V()).p)
    {
      QueuedArePending(V());
      WriteRefines(V(), s);
      var first := if s != "" && queue != [] then [queue[0]] else [];
      written := TakeWrite(s);
      if written && first != [] {
        PaidBack(old(due), first, Data(s));
        Settle(first);
      }
    }

    /** Writer::close() */
    method CloseWriter() returns (closed: bool)
      requires Valid(V())
      modifies this
      ensures Valid(V()) && Abs(V()) == DoCloseWriter(old(Abs(V()))) && due == old(due)
      ensures closed == old(writeEnd).Open?
    {
      QueuedArePending(V());
      CloseWriterRefines(V());
      var waiting := queue;
      closed := TakeWriter();
      if closed {
        PaidBack(old(due), waiting, Data(""));
        Settle(waiting);
      }
    }

    /** Writer::fail() */
    method FailWriter(m: string) returns (failed: bool)
      requires Valid(V())
      modifies this
      ensures Valid(V()) && Abs(V()) == DoFailWriter(old(Abs(V())), m) && due == old(due)
      ensures failed == old(writeEnd).Open?
    {
      QueuedArePending(V());
      FailWriterRefines(V(), m);
      var waiting := queue;
      failed := TakeFailure(m);
      if failed {
        PaidBack(old(due), waiting, Failure(m));
        Settle(waiting);
      }
    }

    /** Somebody else is in one of these calls. */
    method Perform(x: Step)
      requires Valid(V()) && Enabled(V(), x)
      modifies this
      ensures V() == PipeSteps.Do(old(V()), x) && Valid(V())
    {
      match x {
        case Lock(op) =>
          match op {
            case Read => var _ := Read();
            case CloseReader => var _ := TakeReader();
            case Write(s) => var _ := TakeWrite(s);
            case CloseWriter => var _ := TakeWriter();
            case FailWriter(m) => var _ := TakeFailure(m);
          }
        case Set(i) => SetOne(i);
        case Tell =>
          StepRefines(V(), x);
          closure, tell := tell, Unset;
      }
    }

    /** Reader::readAll(), interleaved in any way with the locked blocks and the promises of others. Once an end is
        closed, each turn of the reader gets a piece of data or finishes, unless its answer is still on the way. */
    method ReadAll(schedule: seq<Turn>) returns (all: All)
      requires Valid(V()) && forall t :: t in schedule && t.Theirs? ==> t.x != Lock(PipeModel.Read)
      modifies this
      ensures Valid(V()) && |results| > |old(results)|
      ensures all.Text? ==> writeEnd.Closed?
      ensures all.Text? ==> Concat(Got(Applied(results, due)[..|old(results)|])) + all.s == Concat(accepted)
      ensures all.Failed? ==> (!readOpen && all.message == "closed") || writeEnd == Broken(all.message)
      ensures all.Unfinished? ==> Reading(results, |old(results)|, |results| - 1, all.sofar)
      ensures all.Unfinished? && !Takes(V().p) && |results| - 1 !in due ==> Tail(schedule) < |results| - |old(results)|
    {
      var start := |results|;
      var buffer := "";
      var k := Read();
      for n := 0 to |schedule|
        invariant Mid(V(), start, k, buffer, Tail(schedule[..n]))
      {
        assert schedule[..n + 1][..n] == schedule[..n];
        if schedule[n].Theirs? {
          if CanDo(schedule[n].x) {
            Undisturbed(V(), schedule[n].x, start, k, buffer, Tail(schedule[..n]));
            Perform(schedule[n].x);
          }
        } else {
          all, k := Resume(start, k, buffer, Tail(schedule[..n]));
          if !all.Unfinished? { return; }
          buffer := all.sofar;
        }
      }
      assert schedule[..|schedule|] == schedule;
      return Unfinished(buffer);
    }

    /** Whether the step can be taken now; a turn that cannot is skipped. */
    predicate CanDo(x: Step)
      reads this
    {
      match x
      case Lock(_) => true
      case Set(i) => i in due && i < |results|
      case Tell => !tell.Unset?
    }

    /** One turn of the loop in readAll(): looks at the read it waits for. */
    method Resume(start: nat, k: nat, buffer: string, ghost tail: nat) returns (all: All, next: nat)
      requires Mid(V(), start, k, buffer, tail)
      modifies this
      ensures Valid(V()) && start < |results|
      ensures all.Text? ==> writeEnd.Closed?
      ensures all.Text? ==> Concat(Got(Applied(results, due)[..start])) + all.s == Concat(accepted)
      ensures all.Failed? ==> (!readOpen && all.message == "closed") || writeEnd == Broken(all.message)
      ensures all.Unfinished? ==> Mid(V(), start, next, all.sofar, tail + 1)
    {
      next := k;
      if results[k].Failure? {
        assert Honest(Abs(V()), k);
        all := Failed(results[k].message);
      } else if results[k] == Data("") {
        Everything(V(), start, k, buffer);
        all := Text(buffer);
      } else if results[k].Data? {
        Appended(V(), start, k, buffer, tail);
        all := Unfinished(buffer + results[k].s);
        next := Read();
      } else {
        StillWaits(V(), start, k, buffer, tail);
        all := Unfinished(buffer);
      }
    }
  }

  /** What is owed for `queue` and then paid leaves what was owed before. */
  lemma PaidBack(due: map<nat, Result>, queue: seq<nat>, r: Result)
    requires forall j :: 0 <= j < |queue| ==> queue[j] !in due
    ensures Owe(due, queue, r) - (set j | j in queue) == due
  {
  }

  /** readAll() has read data into `buffer` since `start` and now waits for read `k`. */
  predicate Reading(rs: seq<Result>, start: nat, k: int, buffer: string) {
    && start <= k == |rs| - 1
    && (forall i :: start <= i < k ==> IsData(rs[i]))
    && buffer == Concat(Got(rs[start..k]))
  }

  /** The same, after `tail` turns of its own in a row. */
  predicate Mid(s: State, start: nat, k: int, buffer: string, tail: nat) {
    && Valid(s) && Reading(s.p.results, start, k, buffer)
    && (!Takes(s.p) && k !in s.due ==> tail <= k - start)
  }

  /** A read that is pending and not about to be set waits in the queue, so both ends are open. */
  lemma StillWaits(s: State, start: nat, k: nat, buffer: string, tail: nat)
    requires Mid(s, start, k, buffer, tail) && s.p.results[k].Pending?
    ensures Mid(s, start, k, buffer, tail + 1)
  {
    var v := Abs(s);
    if k !in s.due {
      assert v.results[k].Pending?;
    }
  }

  lemma Undisturbed(s: State, x: Step, start: nat, k: nat, buffer: string, tail: nat)
    requires Enabled(s, x) && x != Lock(Read) && Mid(s, start, k, buffer, tail)
    ensures Mid(PipeSteps.Do(s, x), start, k, buffer, 0)
  {
    StepRefines(s, x);
    var rs := PipeSteps.Do(s, x).p.results;
    assert |rs| == |s.p.results|;
    forall i: nat | start <= i < k ensures rs[i] == s.p.results[i] {
      assert IsData(s.p.results[i]);
      PipeSteps.ResultsAreFinal(s, x, i);
    }
    assert rs[start..k] == s.p.results[start..k];
  }

  lemma {:induction false} ConcatApp(a: seq<string>, b: seq<string>)
    ensures Concat(a + b) == Concat(a) + Concat(b)
  {
    if b == [] {
      assert a + b == a;
    } else {
      var n := |b| - 1;
      var ab := a + b;
      assert ab[..|ab| - 1] == a + b[..n] && ab[|ab| - 1] == b[n];
      ConcatApp(a, b[..n]);
    }
  }

  lemma Appended(s: State, start: nat, k: nat, buffer: string, tail: nat)
    requires Mid(s, start, k, buffer, tail) && IsData(s.p.results[k])
    ensures Mid(DoLock(s, Read), start, k + 1, buffer + s.p.results[k].s, tail + 1)
  {
    StepRefines(s, Lock(Read));
    var r := DoRead(s.p).results[|s.p.results|];
    assert DoRead(s.p).results == s.p.results + [r];
    Extended(s.p.results, r, start, k, buffer);
  }

  lemma Extended(rs: seq<Result>, r: Result, start: nat, k: nat, buffer: string)
    requires Reading(rs, start, k, buffer) && IsData(rs[k])
    ensures Reading(rs + [r], start, k + 1, buffer + rs[k].s)
  {
    assert (rs + [r])[start..k + 1] == rs[start..k] + [rs[k]];
    GotOneMore(rs[start..k], rs[k]);
    var g := Got(rs[start..k]);
    assert (g + [rs[k].s])[..|g|] == g;
  }

  /** The reads before and those of readAll() make up all that was written. */
  lemma Everything(s: State, start: nat, k: nat, buffer: string)
    requires Valid(s) && Reading(s.p.results, start, k, buffer) && s.p.results[k] == Data("")
    ensures s.p.writeEnd.Closed?
    ensures Concat(Got(Applied(s.p.results, s.due)[..start])) + buffer == Concat(s.p.accepted)
  {
    var rs := Applied(s.p.results, s.due);
    assert Honest(Abs(s), k);
    assert rs[start..k] == s.p.results[start..k];
    assert rs[..k] == rs[..start] + rs[start..k];
    GotApp(rs[..start], rs[start..k]);
    ConcatApp(Got(rs[..start]), Got(rs[start..k]));
    ConcatNonEmpty(s.p.accepted);
  }
}
