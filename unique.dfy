/** UniquePtr of unique/unique.h: exclusive ownership of one pointer together
    with a deleter. The compressed pair of the source is two plain fields. A
    deleter is an abstract value that travels with the pointer; calling it is
    an event, recorded in a DisposalLog, and what it does to the pointee
    (DefaultDelete runs `delete`) is not modelled. */
module Unique {
  import opened Pointers

  /** A deleter: DefaultDelete, or a user-supplied deleter told apart by a
      tag (its state, if it has any). */
  datatype Deleter = DefaultDelete | Custom(tag: nat)

  /** One call of a deleter on a pointer. */
  datatype Disposal = Disposal(deleter: Deleter, ptr: Ptr)

  /** The state of one handle: the pointer it owns and its deleter. */
  datatype Handle = Handle(ptr: Ptr, deleter: Deleter)

  /** What giving up the pointer of `h` costs: the deleter of `h` is called
      on it once, unless it is null. */
  function Dispose(h: Handle): (calls: seq<Disposal>)
    ensures |calls| <= 1
    ensures calls == [] <==> h.ptr == Null
    ensures forall d :: d in calls ==> d == Disposal(h.deleter, h.ptr)
  {
    if h.ptr.At? then [Disposal(h.deleter, h.ptr)] else []
  }

  /** The operations that change what a single handle owns. */
  datatype Op =
    | ResetOp(p: Ptr)                    // Reset(p); operator=(nullptr) is ResetOp(Null)
    | ReleaseOp                          // Release()
    | MoveInOp(p: Ptr, d: Deleter)       // operator=(UniquePtr&&) from a handle owning p with deleter d
    | SwapOp(p: Ptr, d: Deleter)         // Swap(other) with a handle owning p with deleter d

  /** The effect of one operation: the new state, the deleter calls made, and
      the pointer that left the handle without a deleter call (Release hands
      it back to the caller, Swap hands it to the other handle). */
  datatype Outcome = Outcome(handle: Handle, disposed: seq<Disposal>, released: seq<Ptr>)

  /** One operation. Reset installs the new pointer and disposes of the old
      one with the current deleter; Release hands the pointer back without a
      deleter call; move assignment disposes of the old pointer with the old
      deleter (Reset runs before the deleter is moved over) and then takes
      both of the source's fields; Swap takes both of the other handle's
      fields and gives it its own, again without a deleter call. */
  function Step(h: Handle, op: Op): (r: Outcome)
    ensures forall d :: d in r.disposed ==> d == Disposal(h.deleter, h.ptr) && d.ptr.At?
    ensures |r.disposed| + |r.released| <= 1
    ensures (op.ReleaseOp? || op.SwapOp?) <==> r.released != []
    ensures op.ReleaseOp? ==> r.handle == h.(ptr := Null) && r.released == [h.ptr] && r.disposed == []
    ensures op.ResetOp? ==> r.handle == h.(ptr := op.p) && (r.disposed == [] <==> h.ptr == Null)
    ensures op.MoveInOp? ==> r.handle == Handle(op.p, op.d) && (r.disposed == [] <==> h.ptr == Null)
    ensures op.SwapOp? ==> r.handle == Handle(op.p, op.d) && r.released == [h.ptr] && r.disposed == []
  {
    match op
    case ResetOp(p) => Outcome(h.(ptr := p), Dispose(h), [])
    case ReleaseOp => Outcome(h.(ptr := Null), [], [h.ptr])
    case MoveInOp(p, d) => Outcome(Handle(p, d), Dispose(h), [])
    case SwapOp(p, d) => Outcome(Handle(p, d), [], [h.ptr])
  }

  /** A run of operations on one handle, collecting the deleter calls and the
      pointers passed on in order. */
  function Run(h: Handle, ops: seq<Op>): (r: Outcome)
    ensures forall d :: d in r.disposed ==> d.ptr.At?
    ensures |r.disposed| + |r.released| <= |ops|
    decreases |ops|
  {
    if ops == [] then Outcome(h, [], [])
    else
      var first := Step(h, ops[0]);
      var rest := Run(first.handle, ops[1..]);
      Outcome(rest.handle, first.disposed + rest.disposed, first.released + rest.released)
  }

  /** A pointer as a multiset: empty for null. */
  function NonNull(p: Ptr): multiset<Ptr> {
    if p.At? then multiset{p} else multiset{}
  }

  /** The non-null pointers among `ps`. */
  function NonNullAll(ps: seq<Ptr>): multiset<Ptr>
    decreases |ps|
  {
    if ps == [] then multiset{} else NonNull(ps[0]) + NonNullAll(ps[1..])
  }

  /** The pointers the deleter calls were made on. */
  function DisposedPtrs(calls: seq<Disposal>): multiset<Ptr>
    decreases |calls|
  {
    if calls == [] then multiset{} else multiset{calls[0].ptr} + DisposedPtrs(calls[1..])
  }

  /** The pointers each operation hands to the handle. */
  function Incoming(op: Op): multiset<Ptr> {
    match op
    case ResetOp(p) => NonNull(p)
    case ReleaseOp => multiset{}
    case MoveInOp(p, _) => NonNull(p)
    case SwapOp(p, _) => NonNull(p)
  }

  /** Every non-null pointer `ops` hand to the handle, with multiplicity. */
  function IncomingAll(ops: seq<Op>): multiset<Ptr>
    decreases |ops|
  {
    if ops == [] then multiset{} else Incoming(ops[0]) + IncomingAll(ops[1..])
  }

  lemma {:induction false} DisposedPtrsAppend(a: seq<Disposal>, b: seq<Disposal>)
    ensures DisposedPtrs(a + b) == DisposedPtrs(a) + DisposedPtrs(b)
    decreases |a|
  {
    if a != [] {
      assert (a + b)[0] == a[0] && (a + b)[1..] == a[1..] + b;
      DisposedPtrsAppend(a[1..], b);
    } else {
      assert a + b == b;
    }
  }

  lemma {:induction false} NonNullAllAppend(a: seq<Ptr>, b: seq<Ptr>)
    ensures NonNullAll(a + b) == NonNullAll(a) + NonNullAll(b)
    decreases |a|
  {
    if a != [] {
      assert (a + b)[0] == a[0] && (a + b)[1..] == a[1..] + b;
      NonNullAllAppend(a[1..], b);
    } else {
      assert a + b == b;
    }
  }

  /** One operation loses no pointer and invents none: what the handle held
      and what it was given is what the deleter got, what was passed on
      and what it holds now. */
  lemma StepAccounts(h: Handle, op: Op)
    ensures var r := Step(h, op);
            NonNull(h.ptr) + Incoming(op)
            == DisposedPtrs(r.disposed) + NonNullAll(r.released) + NonNull(r.handle.ptr)
  {
  }

  /** Two accounting steps in a row: what the first leaves in the handle is
      what the second starts from. */
  lemma Chain<T>(held: multiset<T>, in1: multiset<T>, in2: multiset<T>,
                 d1: multiset<T>, r1: multiset<T>, mid: multiset<T>,
                 d2: multiset<T>, r2: multiset<T>, last: multiset<T>)
    requires held + in1 == d1 + r1 + mid
    requires mid + in2 == d2 + r2 + last
    ensures held + (in1 + in2) == (d1 + d2) + (r1 + r2) + last
  {
    forall x
      ensures (held + (in1 + in2))[x] == ((d1 + d2) + (r1 + r2) + last)[x]
    {
      assert (held + in1)[x] == (d1 + r1 + mid)[x];
      assert (mid + in2)[x] == (d2 + r2 + last)[x];
    }
  }

  /** What is left in the handle joins what the deleter got. */
  lemma MoveLast<T>(total: multiset<T>, d: multiset<T>, r: multiset<T>, last: multiset<T>)
    requires total == d + r + last
    ensures total == (d + last) + r
  {
  }

  /** The same for any run of operations: every non-null pointer the handle
      ever owned was passed to a deleter, or handed back by Release, or given
      to another handle by Swap, or is still owned, and each of these happened to it exactly once (counted
      with multiplicity). */
  lemma {:induction false} RunAccounts(h: Handle, ops: seq<Op>)
    ensures var r := Run(h, ops);
            NonNull(h.ptr) + IncomingAll(ops)
            == DisposedPtrs(r.disposed) + NonNullAll(r.released) + NonNull(r.handle.ptr)
    decreases |ops|
  {
    if ops != [] {
      var first := Step(h, ops[0]);
      var rest := Run(first.handle, ops[1..]);
      StepAccounts(h, ops[0]);
      RunAccounts(first.handle, ops[1..]);
      DisposedPtrsAppend(first.disposed, rest.disposed);
      NonNullAllAppend(first.released, rest.released);
      Chain(NonNull(h.ptr), Incoming(ops[0]), IncomingAll(ops[1..]),
            DisposedPtrs(first.disposed), NonNullAll(first.released), NonNull(first.handle.ptr),
            DisposedPtrs(rest.disposed), NonNullAll(rest.released), NonNull(rest.handle.ptr));
    }
  }

  /** Over a handle's whole life, its destructor included, the deleter is
      called exactly once on every non-null pointer the handle owned and did
      not pass on, by Release or by Swap. */
  lemma LifetimeAccounts(h: Handle, ops: seq<Op>)
    ensures var r := Run(h, ops);
            NonNull(h.ptr) + IncomingAll(ops)
            == DisposedPtrs(r.disposed + Dispose(r.handle)) + NonNullAll(r.released)
  {
    var r := Run(h, ops);
    RunAccounts(h, ops);
    DisposedPtrsAppend(r.disposed, Dispose(r.handle));
    assert DisposedPtrs(Dispose(r.handle)) == NonNull(r.handle.ptr);
    MoveLast(NonNull(h.ptr) + IncomingAll(ops), DisposedPtrs(r.disposed), NonNullAll(r.released),
             NonNull(r.handle.ptr));
  }

  /** For a pointer the handle was given once: by the end of the handle's
      life it was either passed to the deleter exactly once, or passed on by
      Release or Swap and never passed to the deleter. */
  lemma GivenOnceEndsOnce(h: Handle, ops: seq<Op>, p: Ptr)
    requires (NonNull(h.ptr) + IncomingAll(ops))[p] == 1
    ensures var r := Run(h, ops);
            DisposedPtrs(r.disposed + Dispose(r.handle))[p] + NonNullAll(r.released)[p] == 1
  {
    LifetimeAccounts(h, ops);
  }

  /** The deleter calls made so far, in order. One log is shared by all the
      handles of a scenario; every operation that may call a deleter appends
      to it. */
  class DisposalLog {
    var calls: seq<Disposal>

    constructor ()
      ensures calls == []
    {
      calls := [];
    }

    /** The deleter `d` is called on `p`. */
    method Call(d: Deleter, p: Ptr)
      modifies this
      ensures calls == old(calls) + [Disposal(d, p)]
    {
      calls := calls + [Disposal(d, p)];
    }
  }

  class UniquePtr {
    var ptr: Ptr
    var deleter: Deleter

    /** The handle's state as a value. */
    function Contents(): Handle
      reads this
    {
      Handle(ptr, deleter)
    }

    /** UniquePtr(), UniquePtr(T*), UniquePtr(T*, deleter): owns `p`, which
        may be null, with deleter `d` (DefaultDelete when none is given). */
    constructor (p: Ptr, d: Deleter)
      ensures Contents() == Handle(p, d)
    {
      ptr, deleter := p, d;
    }

    /** The move constructor: takes the source's pointer (by Release) and its
        deleter; the source is left null. No deleter is called. */
    constructor Move(other: UniquePtr)
      modifies other
      ensures Contents() == old(other.Contents())
      ensures other.Contents() == old(other.Contents()).(ptr := Null)
    {
      var p := other.Release();
      ptr, deleter := p, other.deleter;
    }

    /** Release: hands the pointer back and leaves the handle null; no
        deleter is called. */
    method Release() returns (p: Ptr)
      modifies this
      ensures var r := Step(old(Contents()), ReleaseOp);
              Contents() == r.handle && r.released == [p] && r.disposed == []
    {
      p, ptr := ptr, Null;
    }

    /** Reset(p): installs `p`, then calls the deleter on the old pointer iff
        it was not null. */
    method Reset(p: Ptr, log: DisposalLog)
      modifies this, log
      ensures var r := Step(old(Contents()), ResetOp(p));
              Contents() == r.handle && log.calls == old(log.calls) + r.disposed
    {
      var oldPtr := ptr;
      ptr := p;
      if oldPtr.At? {
        log.Call(deleter, oldPtr);
      }
    }

    /** operator=(nullptr), which is Reset(). */
    method AssignNull(log: DisposalLog)
      modifies this, log
      ensures var r := Step(old(Contents()), ResetOp(Null));
              Contents() == r.handle && log.calls == old(log.calls) + r.disposed
    {
      Reset(Null, log);
    }

    /** Move assignment. Self-move-assignment does nothing. Otherwise
        Reset(other.Release()) disposes of the old pointer with the old
        deleter, and then the source's deleter is moved over; the source is
        left null. */
    method MoveAssign(other: UniquePtr, log: DisposalLog)
      modifies this, other, log
      ensures this == other ==> Contents() == old(Contents()) && log.calls == old(log.calls)
      ensures this != other ==>
                var r := Step(old(Contents()), MoveInOp(old(other.ptr), old(other.deleter)));
                && Contents() == r.handle && log.calls == old(log.calls) + r.disposed
                && other.Contents() == old(other.Contents()).(ptr := Null)
    {
      if this != other {
        var p := other.Release();
        Reset(p, log);
        deleter := other.deleter;
      }
    }

    /** The destructor: calls the deleter once iff the pointer is not null. */
    method Destroy(log: DisposalLog)
      modifies log
      ensures log.calls == old(log.calls) + Dispose(Contents())
    {
      if ptr.At? {
        log.Call(deleter, ptr);
      }
    }

    /** Swap: pointer and deleter are exchanged, through temporaries; no
        deleter is called. Swapping a handle with itself changes nothing. */
    method Swap(other: UniquePtr)
      modifies this, other
      ensures Contents() == old(other.Contents()) && other.Contents() == old(Contents())
      ensures var r := Step(old(Contents()), SwapOp(old(other.ptr), old(other.deleter)));
              Contents() == r.handle && r.released == [other.ptr] && r.disposed == []
    {
      var tempPtr, tempDel := ptr, deleter;
      ptr, deleter := other.ptr, other.deleter;
      other.ptr, other.deleter := tempPtr, tempDel;
    }

    /** Get() and operator->. */
    function Get(): (p: Ptr)
      reads this
      ensures p == Contents().ptr
    {
      ptr
    }

    /** GetDeleter(). */
    function GetDeleter(): (d: Deleter)
      reads this
      ensures d == Contents().deleter
    {
      deleter
    }

    /** explicit operator bool. */
    function ToBool(): (b: bool)
      reads this
      ensures b <==> Get() != Null
    {
      ptr.At?
    }
  }

  /** Reset disposes of the old pointer with the handle's deleter; a
      released pointer is handed back and never disposed of. */
  method ResetThenRelease(a: nat, b: nat, d: Deleter) returns (calls: seq<Disposal>, released: Ptr)
    ensures calls == [Disposal(d, At(a))] && released == At(b)
  {
    var log := new DisposalLog();
    var u := new UniquePtr(At(a), d);
    u.Reset(At(b), log);
    released := u.Release();
    u.Destroy(log);
    calls := log.calls;
  }

  /** Move assignment disposes of the target's pointer with the target's own
      deleter; the moved pointer is later disposed of with the deleter that
      came with it, and the source no longer owns anything. */
  method MoveAssignBetween(a: nat, b: nat, d1: Deleter, d2: Deleter)
    returns (calls: seq<Disposal>, source: Ptr)
    ensures calls == [Disposal(d1, At(a)), Disposal(d2, At(b))] && source == Null
  {
    var log := new DisposalLog();
    var x := new UniquePtr(At(a), d1);
    var y := new UniquePtr(At(b), d2);
    x.MoveAssign(y, log);
    source := y.Get();
    y.Destroy(log);
    x.Destroy(log);
    calls := log.calls;
  }

  /** Swap exchanges deleters along with pointers. */
  method SwapThenDestroy(a: nat, b: nat, d1: Deleter, d2: Deleter) returns (calls: seq<Disposal>)
    ensures calls == [Disposal(d2, At(b)), Disposal(d1, At(a))]
  {
    var log := new DisposalLog();
    var x := new UniquePtr(At(a), d1);
    var y := new UniquePtr(At(b), d2);
    x.Swap(y);
    x.Destroy(log);
    y.Destroy(log);
    calls := log.calls;
  }

  /** Self-move-assignment and self-swap leave the handle as it was; the
      pointer is disposed of once, by the destructor. */
  method SelfOperations(a: nat, d: Deleter) returns (calls: seq<Disposal>, held: Ptr, moved: Ptr)
    ensures calls == [Disposal(d, At(a))] && held == At(a) && moved == At(a)
  {
    var log := new DisposalLog();
    var x := new UniquePtr(At(a), d);
    x.MoveAssign(x, log);
    held := x.Get();
    x.Swap(x);
    var y := new UniquePtr.Move(x);
    moved := y.Get();
    x.Destroy(log);
    y.Destroy(log);
    calls := log.calls;
  }

  /** A null pointer is never handed to the deleter. */
  method NullIsNotDisposed(d: Deleter) returns (calls: seq<Disposal>, nonNull: bool)
    ensures calls == [] && !nonNull
  {
    var log := new DisposalLog();
    var x := new UniquePtr(Null, d);
    x.AssignNull(log);
    nonNull := x.ToBool();
    x.Destroy(log);
    calls := log.calls;
  }
}
