/** The strong/weak control block of weak/shared.h: ControlBlockBase with its
    two counters, and the two concrete blocks ControlBlockOwning (pointee
    placement-constructed inside the block) and ControlBlockPointer (pointee
    allocated separately and adopted). The virtual hooks OnZeroStrong and
    Expired become a match on the block's Kind. */
module StrongWeakBlock {
  import opened Pointers

  /** Which concrete control block this is. */
  datatype Kind = Owning | Adopting

  /** The state of one control block.
      - strong, weak: str_counter_ and weak_counter_;
      - valid: ControlBlockOwning::valid_ (unused by an adopting block);
      - ptr: ControlBlockPointer::ptr_ (unused by an owning block);
      - managed: the pointee the block was created for (the in-place storage
        of an owning block, the adopted pointer of an adopting one);
      - destroyed: how many times the pointee's destructor has run;
      - freed: the block has deleted itself. */
  datatype Block = Block(kind: Kind, managed: Ptr, strong: nat, weak: nat,
                         valid: bool, ptr: Ptr, destroyed: nat, freed: bool)

  /** The states a block can reach: it is freed only with both counters at 0;
      the pointee is alive exactly while the strong count is positive, and it
      has been destroyed once (if there was one) ever since that count reached 0.
      A strong count that is 0 has reached 0: it never grows again. */
  predicate Inv(b: Block) {
    && (b.freed ==> b.strong == 0 && b.weak == 0)
    && (b.kind == Owning ==> b.managed.At? && b.ptr == Null && b.valid == (b.strong > 0))
    && (b.kind == Adopting ==> !b.valid && b.ptr == (if b.strong > 0 then b.managed else Null))
    && b.destroyed == (if b.strong == 0 && b.managed.At? then 1 else 0)
  }

  /** ControlBlockOwning::Expired (`!valid_`) and ControlBlockPointer::Expired
      (`!ptr_`): the pointee no longer exists. In a reachable state that is
      exactly "the strong count has reached 0", except that a block adopting a
      null pointer is expired from the start. */
  function IsExpired(b: Block): (e: bool)
    ensures Inv(b) ==> (e <==> b.strong == 0 || b.managed == Null)
  {
    match b.kind
    case Owning => !b.valid
    case Adopting => b.ptr == Null
  }

  /** ControlBlockOwning::GetPointer: the in-place pointee while it is alive,
      null once it has been destroyed. */
  function InPlacePointer(b: Block): (p: Ptr)
    requires b.kind == Owning
    ensures p == Null <==> IsExpired(b) || b.managed == Null
    ensures Inv(b) ==> p == (if b.strong > 0 then b.managed else Null)
  {
    if b.valid then b.managed else Null
  }

  /** A new ControlBlockOwning whose pointee was constructed in place at
      `addr`: strong count 1, weak count 0, pointee alive. */
  function NewOwning(addr: nat): (b: Block)
    ensures Inv(b) && b.kind == Owning && b.managed == At(addr)
    ensures b.strong == 1 && b.weak == 0 && !b.freed && b.destroyed == 0
    ensures !IsExpired(b) && InPlacePointer(b) == At(addr)
  {
    Block(Owning, At(addr), 1, 0, true, Null, 0, false)
  }

  /** A new ControlBlockPointer adopting `p`: strong count 1, weak count 0;
      it is expired from the start iff `p` is null. */
  function NewAdopting(p: Ptr): (b: Block)
    ensures Inv(b) && b.kind == Adopting && b.managed == p
    ensures b.strong == 1 && b.weak == 0 && !b.freed && b.destroyed == 0
    ensures IsExpired(b) <==> p == Null
  {
    Block(Adopting, p, 1, 0, false, p, 0, false)
  }

  /** OnZeroStrong: an owning block destroys its in-place pointee if it is
      still valid and clears valid_; an adopting block deletes ptr_ (a no-op
      on null) and nulls it. Afterwards the pointee is gone, it was destroyed
      at most once more, and a second call changes nothing. */
  function DestroyPointee(b: Block): (r: Block)
    ensures IsExpired(r)
    ensures r.destroyed == b.destroyed + (if IsExpired(b) then 0 else 1)
    ensures IsExpired(b) ==> r == b
    ensures r.kind == b.kind && r.managed == b.managed && r.strong == b.strong
    ensures r.weak == b.weak && r.freed == b.freed
  {
    match b.kind
    case Owning => b.(valid := false, destroyed := b.destroyed + (if b.valid then 1 else 0))
    case Adopting => b.(ptr := Null, destroyed := b.destroyed + (if b.ptr.At? then 1 else 0))
  }

  /** IncStrongCounter. Raising a positive strong count keeps every invariant
      and leaves the pointee as it was. */
  function IncStrong(b: Block): (r: Block)
    ensures r == b.(strong := b.strong + 1)
    ensures r.strong == b.strong + 1 && r.weak == b.weak && r.destroyed == b.destroyed
    ensures r.freed == b.freed && IsExpired(r) == IsExpired(b)
    ensures Inv(b) && b.strong > 0 ==> Inv(r)
  {
    b.(strong := b.strong + 1)
  }

  /** DecStrongCounter: the strong count drops by one; at the 1 -> 0
      transition the pointee is destroyed (once, if it still existed), and the
      block frees itself at that moment iff no weak reference remains. Above 1
      nothing but the count changes. */
  function DecStrong(b: Block): (r: Block)
    requires b.strong >= 1
    ensures r.strong == b.strong - 1 && r.weak == b.weak
    ensures r.kind == b.kind && r.managed == b.managed
    ensures r.destroyed == b.destroyed + (if b.strong == 1 && !IsExpired(b) then 1 else 0)
    ensures r.freed <==> b.freed || (b.strong == 1 && b.weak == 0)
    ensures b.strong == 1 ==> IsExpired(r)
    ensures b.strong > 1 ==> r == b.(strong := b.strong - 1)
    ensures Inv(b) ==> Inv(r)
  {
    var d := b.(strong := b.strong - 1);
    if d.strong == 0 then
      var z := DestroyPointee(d);
      if z.weak == 0 then z.(freed := true) else z
    else
      d
  }

  /** IncWeakCounter: only the weak count moves. */
  function IncWeak(b: Block): (r: Block)
    ensures r == b.(weak := b.weak + 1)
    ensures r.weak == b.weak + 1 && r.strong == b.strong && r.destroyed == b.destroyed
    ensures r.freed == b.freed && IsExpired(r) == IsExpired(b)
    ensures Inv(b) && !b.freed ==> Inv(r)
  {
    b.(weak := b.weak + 1)
  }

  /** DecWeakCounter: the weak count drops by one and the pointee is never
      touched; the block frees itself iff this was the last weak reference and
      the strong count is already 0. */
  function DecWeak(b: Block): (r: Block)
    requires b.weak >= 1
    ensures r.weak == b.weak - 1 && r.strong == b.strong && r.destroyed == b.destroyed
    ensures IsExpired(r) == IsExpired(b) && r.kind == b.kind && r.managed == b.managed
    ensures r.freed <==> b.freed || (b.weak == 1 && b.strong == 0)
    ensures Inv(b) ==> Inv(r)
  {
    var d := b.(weak := b.weak - 1);
    if d.weak == 0 && d.strong == 0 then d.(freed := true) else d
  }

  /** The counter operations the handles perform on a block. */
  datatype Op = IncStrongOp | DecStrongOp | IncWeakOp | DecWeakOp

  /** What the source leaves undefined: touching a block after it deleted
      itself, decrementing a counter that is already 0, and raising a strong
      count that already reached 0 (which would resurrect a destroyed pointee;
      no handle does it, since promotion refuses an expired block). */
  datatype Misuse = UseAfterFree | UseAfterRelease | Resurrection

  /** One counter operation, or the misuse it would be. */
  function Step(b: Block, op: Op): (r: Result<Block, Misuse>)
    ensures r.Ok? <==> !b.freed && (op.IncStrongOp? || op.DecStrongOp? ==> b.strong >= 1)
                                && (op.DecWeakOp? ==> b.weak >= 1)
    ensures r.Ok? && Inv(b) ==> Inv(r.value)
    ensures r.Ok? ==> r.value.destroyed
                      == b.destroyed + (if op.DecStrongOp? && b.strong == 1 && !IsExpired(b) then 1 else 0)
    ensures r.Ok? && r.value.freed ==> r.value.strong == 0 && r.value.weak == 0
  {
    if b.freed then Err(UseAfterFree)
    else match op
      case IncStrongOp => if b.strong == 0 then Err(Resurrection) else Ok(IncStrong(b))
      case DecStrongOp => if b.strong == 0 then Err(UseAfterRelease) else Ok(DecStrong(b))
      case IncWeakOp => Ok(IncWeak(b))
      case DecWeakOp => if b.weak == 0 then Err(UseAfterRelease) else Ok(DecWeak(b))
  }

  /** Any sequence of counter operations, stopping at the first misuse. From a
      reachable state every reachable state satisfies Inv (so the pointee is
      destroyed at most once, and only once the strong count is 0), the
      destroy count never decreases, and a freed block admits no operation at
      all: the pointee is never destroyed after the block is freed. */
  function Run(b: Block, ops: seq<Op>): (r: Result<Block, Misuse>)
    ensures r.Ok? && Inv(b) ==> Inv(r.value) && r.value.destroyed <= 1
    ensures r.Ok? ==> b.destroyed <= r.value.destroyed
    ensures b.freed && ops != [] ==> r.Err?
    decreases |ops|
  {
    if ops == [] then Ok(b)
    else
      match Step(b, ops[0])
      case Err(m) => Err(m)
      case Ok(next) => Run(next, ops[1..])
  }

  /** Expiry is permanent: once the pointee is gone, no sequence of counter
      operations brings it back or destroys it again. */
  lemma {:induction false} ExpiryIsPermanent(b: Block, ops: seq<Op>)
    requires Inv(b) && IsExpired(b)
    ensures Run(b, ops).Ok? ==> IsExpired(Run(b, ops).value)
    ensures Run(b, ops).Ok? ==> Run(b, ops).value.destroyed == b.destroyed
    decreases |ops|
  {
    if ops != [] {
      match Step(b, ops[0])
      case Err(_) =>
      case Ok(next) => ExpiryIsPermanent(next, ops[1..]);
    }
  }

  /** The block outlives its pointee: in every state reached from a new block,
      a freed block has had its pointee (if any) destroyed exactly once, and a
      destroyed pointee means the strong count is 0. */
  lemma {:induction false} PointeeDiesBeforeBlock(b: Block, ops: seq<Op>)
    requires Inv(b)
    ensures var r := Run(b, ops);
            r.Ok? && r.value.freed ==> r.value.destroyed == (if b.managed.At? then 1 else 0)
    ensures var r := Run(b, ops);
            r.Ok? && r.value.destroyed == 1 ==> r.value.strong == 0
    decreases |ops|
  {
    if ops != [] {
      match Step(b, ops[0])
      case Err(_) =>
      case Ok(next) => PointeeDiesBeforeBlock(next, ops[1..]);
    }
  }

  /** When the handles holding a live block's strong units all let go, the
      pointee (if any) is destroyed exactly once, at the last release; the
      block frees itself then iff no weak reference remains, and until then
      neither happens. */
  lemma {:induction false} ReleasingEveryStrongUnit(b: Block, n: nat)
    requires Inv(b) && !b.freed && 1 <= n <= b.strong
    ensures Run(b, Repeat(DecStrongOp, n)).Ok?
    ensures var r := Run(b, Repeat(DecStrongOp, n)).value;
            && r.strong == b.strong - n && r.weak == b.weak
            && (r.freed <==> n == b.strong && b.weak == 0)
            && r.destroyed == (if n == b.strong && b.managed.At? then 1 else 0)
            && (IsExpired(r) <==> n == b.strong || b.managed == Null)
    decreases n
  {
    var next := DecStrong(b);
    assert Repeat(DecStrongOp, n)[0] == DecStrongOp && Repeat(DecStrongOp, n)[1..] == Repeat(DecStrongOp, n - 1);
    assert Run(b, Repeat(DecStrongOp, n)) == Run(next, Repeat(DecStrongOp, n - 1));
    if n > 1 {
      ReleasingEveryStrongUnit(next, n - 1);
    }
  }

  /** When the weak references of a block whose strong count is 0 all let go,
      the block frees itself at the last one, and the pointee is not touched. */
  lemma {:induction false} ReleasingEveryWeakUnit(b: Block, n: nat)
    requires Inv(b) && !b.freed && b.strong == 0 && 1 <= n <= b.weak
    ensures Run(b, Repeat(DecWeakOp, n)).Ok?
    ensures var r := Run(b, Repeat(DecWeakOp, n)).value;
            && r.weak == b.weak - n && r.destroyed == b.destroyed
            && (r.freed <==> n == b.weak)
    decreases n
  {
    var next := DecWeak(b);
    assert Repeat(DecWeakOp, n)[0] == DecWeakOp && Repeat(DecWeakOp, n)[1..] == Repeat(DecWeakOp, n - 1);
    assert Run(b, Repeat(DecWeakOp, n)) == Run(next, Repeat(DecWeakOp, n - 1));
    if n > 1 {
      ReleasingEveryWeakUnit(next, n - 1);
    }
  }

  /** A control block object: the fields of ControlBlockBase and of both
      concrete blocks. The ghost fields record what the C++ program does to
      memory: how often the pointee was destroyed, whether the block deleted
      itself, and which handles hold its strong units (`owners`) and weak units
      (`observers`); a handle that holds a block is an element of one of these.
      Both are sets of handles; a handle holds at most one unit of a block. */
  class ControlBlock {
    const kind: Kind
    /** The address of the in-place storage of an owning block; null in an
        adopting block. */
    const storage: Ptr
    ghost const managed: Ptr
    var strong: nat
    var weak: nat
    var valid: bool
    var ptr: Ptr
    ghost var destroyed: nat
    ghost var freed: bool
    ghost var owners: set<object>
    ghost var observers: set<object>

    ghost function State(): Block
      reads this
    {
      Block(kind, managed, strong, weak, valid, ptr, destroyed, freed)
    }

    ghost predicate Valid()
      reads this
    {
      Inv(State()) && storage == (if kind == Owning then managed else Null)
    }

    /** Every handle holding a unit is counted: the counters are never below
        the number of handles holding the block. */
    ghost predicate Counted()
      reads this
    {
      |owners| <= strong && |observers| <= weak
    }

    /** ControlBlockOwning's constructor: the pointee is constructed in place
        at `addr`. The initial strong unit belongs to no handle yet. */
    constructor OwningBlock(addr: nat)
      ensures Valid() && State() == NewOwning(addr) && storage == At(addr)
      ensures owners == {} && observers == {}
    {
      kind, storage, managed := Owning, At(addr), At(addr);
      strong, weak := 1, 0;
      valid, ptr := true, Null;
      destroyed, freed := 0, false;
      owners, observers := {}, {};
    }

    /** ControlBlockPointer's constructor, adopting `p`. */
    constructor PointerBlock(p: Ptr)
      ensures Valid() && State() == NewAdopting(p) && storage == Null
      ensures owners == {} && observers == {}
    {
      kind, storage, managed := Adopting, Null, p;
      strong, weak := 1, 0;
      valid, ptr := false, p;
      destroyed, freed := 0, false;
      owners, observers := {}, {};
    }

    /** Hands the initial strong unit of a new block to handle `h`. */
    ghost method Claim(h: object)
      requires strong == 1 && weak == 0 && owners == {} && observers == {}
      modifies this
      ensures State() == old(State()) && owners == {h} && observers == {}
      ensures Counted()
    {
      owners := {h};
    }

    /** A strong unit moves from handle `from` to handle `to`. */
    ghost method TransferOwner(from: object, to: object)
      requires from in owners
      modifies this
      ensures State() == old(State()) && observers == old(observers)
      ensures owners == old(owners) - {from} + {to}
      ensures old(Counted()) ==> Counted()
    {
      owners := owners - {from} + {to};
    }

    /** A weak unit moves from handle `from` to handle `to`. */
    ghost method TransferObserver(from: object, to: object)
      requires from in observers
      modifies this
      ensures State() == old(State()) && owners == old(owners)
      ensures observers == old(observers) - {from} + {to}
      ensures old(Counted()) ==> Counted()
    {
      observers := observers - {from} + {to};
    }

    /** IncStrongCounter, on behalf of handle `h`. Every caller in the source
        holds a strong unit already or has checked that the block is not
        expired, so the strong count is positive. */
    method IncStrongCounter(ghost h: object)
      requires Valid() && strong >= 1
      modifies this
      ensures Valid() && State() == IncStrong(old(State()))
      ensures owners == old(owners) + {h} && observers == old(observers)
      ensures old(Counted()) ==> Counted()
    {
      strong := strong + 1;
      owners := owners + {h};
    }

    /** DecStrongCounter, giving up the unit held by `h`. */
    method DecStrongCounter(ghost h: object)
      requires Valid() && h in owners && strong >= 1
      modifies this
      ensures Valid() && State() == DecStrong(old(State()))
      ensures owners == old(owners) - {h} && observers == old(observers)
      ensures old(Counted()) ==> Counted()
    {
      strong := strong - 1;
      if strong == 0 {
        OnZeroStrong();
        if weak == 0 {
          freed := true;  // delete this
        }
      }
      owners := owners - {h};
    }

    /** The virtual OnZeroStrong hook of both concrete blocks. */
    method OnZeroStrong()
      modifies this
      ensures State() == DestroyPointee(old(State()))
      ensures owners == old(owners) && observers == old(observers)
    {
      match kind
      case Owning =>
        if valid {
          destroyed := destroyed + 1;  // storage_->~T()
        }
        valid := false;
      case Adopting =>
        if ptr.At? {
          destroyed := destroyed + 1;  // delete ptr_
        }
        ptr := Null;
    }

    /** IncWeakCounter, on behalf of handle `h`. */
    method IncWeakCounter(ghost h: object)
      requires Valid() && !freed
      modifies this
      ensures Valid() && State() == IncWeak(old(State()))
      ensures observers == old(observers) + {h} && owners == old(owners)
      ensures old(Counted()) ==> Counted()
    {
      weak := weak + 1;
      observers := observers + {h};
    }

    /** DecWeakCounter, giving up the weak unit held by `h`. */
    method DecWeakCounter(ghost h: object)
      requires Valid() && h in observers && weak >= 1
      modifies this
      ensures Valid() && State() == DecWeak(old(State()))
      ensures observers == old(observers) - {h} && owners == old(owners)
      ensures old(Counted()) ==> Counted()
    {
      weak := weak - 1;
      if weak == 0 && strong == 0 {
        freed := true;  // delete this
      }
      observers := observers - {h};
    }

    /** The virtual Expired query. */
    function Expired(): (e: bool)
      reads this
      ensures e == IsExpired(State())
      ensures Valid() ==> (e <==> strong == 0 || managed == Null)
    {
      match kind
      case Owning => !valid
      case Adopting => ptr == Null
    }

    /** GetCounter: the strong count, which covers every handle holding a
        strong unit. */
    function GetCounter(): (n: nat)
      reads this
      ensures Counted() ==> |owners| <= n
      ensures n == State().strong
    {
      strong
    }

    /** ControlBlockOwning::GetPointer. */
    function GetPointer(): (p: Ptr)
      reads this
      requires kind == Owning
      ensures Valid() ==> p == InPlacePointer(State())
      ensures Valid() ==> (p == if strong > 0 then storage else Null)
    {
      if valid then storage else Null
    }
  }
}
