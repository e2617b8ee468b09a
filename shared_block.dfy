/** The single-counter control block of shared/shared.h: ControlBlockBase with
    its one counter, and the two concrete blocks ControlBlockOwning (pointee
    stored by value inside the block) and ControlBlockPointer (pointee
    allocated separately and deleted by the block's destructor). There is no
    weak count: the block deletes itself, and the pointee with it, when the
    counter reaches 0. The virtual destructor becomes a match on the Kind. */
module SharedBlock {
  import opened Pointers

  /** Which concrete control block this is. */
  datatype Kind = Owning | Adopting

  /** The state of one control block.
      - counter: counter_;
      - managed: the pointee (the embedded obj_ of an owning block, the
        adopted ptr_ of an adopting one);
      - destroyed: how many times the pointee's destructor has run;
      - freed: the block has deleted itself. */
  datatype Block = Block(kind: Kind, managed: Ptr, counter: nat, destroyed: nat, freed: bool)

  /** The states a block can reach: it is deleted exactly when its counter is
      0, and its pointee (if there is one) has been destroyed once then and
      never before. An owning block always has a pointee. */
  predicate Inv(b: Block) {
    && (b.freed <==> b.counter == 0)
    && (b.kind == Owning ==> b.managed.At?)
    && b.destroyed == (if b.freed && HasPointee(b) then 1 else 0)
  }

  /** Deleting the block destroys a pointee: the embedded one of an owning
      block, the adopted one of an adopting block unless that is null. */
  predicate HasPointee(b: Block) {
    b.kind == Owning || b.managed.At?
  }

  /** A new ControlBlockOwning whose embedded pointee lives at `addr`. */
  function NewOwning(addr: nat): (b: Block)
    ensures Inv(b) && b.kind == Owning && b.managed == At(addr)
    ensures b.counter == 1 && !b.freed && b.destroyed == 0
  {
    Block(Owning, At(addr), 1, 0, false)
  }

  /** A new ControlBlockPointer adopting `p`, which may be null. */
  function NewAdopting(p: Ptr): (b: Block)
    ensures Inv(b) && b.kind == Adopting && b.managed == p
    ensures b.counter == 1 && !b.freed && b.destroyed == 0
  {
    Block(Adopting, p, 1, 0, false)
  }

  /** `delete this`: the owning block's destructor destroys the embedded
      pointee; the adopting block's destructor deletes ptr_, which does
      nothing on null. */
  function Delete(b: Block): (r: Block)
    ensures r.freed && r.kind == b.kind && r.managed == b.managed && r.counter == b.counter
    ensures r.destroyed == b.destroyed + (if HasPointee(b) then 1 else 0)
  {
    match b.kind
    case Owning => b.(destroyed := b.destroyed + 1, freed := true)
    case Adopting => b.(destroyed := b.destroyed + (if b.managed.At? then 1 else 0), freed := true)
  }

  /** IncrementCounter. A live block stays in a reachable state. */
  function Increment(b: Block): (r: Block)
    ensures r.counter == b.counter + 1 && r.destroyed == b.destroyed && r.freed == b.freed
    ensures r.kind == b.kind && r.managed == b.managed
    ensures Inv(b) && !b.freed ==> Inv(r)
  {
    b.(counter := b.counter + 1)
  }

  /** DecrementCounter: the counter drops by one, and at 0 the block deletes
      itself, destroying the pointee once; above 1 only the counter changes. */
  function Decrement(b: Block): (r: Block)
    requires b.counter >= 1
    ensures r.counter == b.counter - 1 && r.kind == b.kind && r.managed == b.managed
    ensures r.freed <==> b.freed || b.counter == 1
    ensures r.destroyed == b.destroyed + (if b.counter == 1 && HasPointee(b) then 1 else 0)
    ensures b.counter > 1 ==> r == b.(counter := b.counter - 1)
    ensures Inv(b) ==> Inv(r)
  {
    var d := b.(counter := b.counter - 1);
    if d.counter == 0 then Delete(d) else d
  }

  /** The counter operations the handles perform on a block. */
  datatype Op = IncOp | DecOp

  /** What the source leaves undefined: touching a block after it deleted
      itself (the counter has reached 0 exactly then, so this covers
      decrementing a counter of 0 too). */
  datatype Misuse = UseAfterFree

  /** One counter operation, or the misuse it would be. */
  function Step(b: Block, op: Op): (r: Result<Block, Misuse>)
    requires Inv(b)
    ensures r.Ok? <==> !b.freed
    ensures r.Ok? ==> Inv(r.value)
    ensures r.Ok? ==> r.value.destroyed
                      == b.destroyed + (if op.DecOp? && b.counter == 1 && HasPointee(b) then 1 else 0)
  {
    if b.freed then Err(UseAfterFree)
    else match op
      case IncOp => Ok(Increment(b))
      case DecOp => Ok(Decrement(b))
  }

  /** Any sequence of counter operations from a reachable state, stopping at
      the first misuse: every state reached is reachable (so the pointee is
      destroyed at most once, and exactly when the block is deleted), and a
      deleted block admits no operation at all. */
  function Run(b: Block, ops: seq<Op>): (r: Result<Block, Misuse>)
    requires Inv(b)
    ensures r.Ok? ==> Inv(r.value) && r.value.destroyed <= 1
    ensures r.Ok? ==> b.destroyed <= r.value.destroyed
    ensures b.freed && ops != [] ==> r.Err?
    decreases |ops|
  {
    if ops == [] then Ok(b)
    else
      match Step(b, ops[0])
      case Err(m) => Err(m)
      case Ok(next) => Run(next, ops[1..])
  }

  /** When the handles holding a live block's `counter` units all let go, the
      block is deleted and its pointee (if any) destroyed exactly once; as long
      as one unit is left, the block is live and the pointee untouched. */
  lemma {:induction false} ReleasingEveryUnit(b: Block, n: nat)
    requires Inv(b) && !b.freed && 1 <= n <= b.counter
    ensures Run(b, Repeat(DecOp, n)).Ok?
    ensures var r := Run(b, Repeat(DecOp, n)).value;
            r.counter == b.counter - n && (r.freed <==> n == b.counter)
    ensures var r := Run(b, Repeat(DecOp, n)).value;
            r.destroyed == (if n == b.counter && HasPointee(b) then 1 else 0)
    decreases n
  {
    var next := Decrement(b);
    assert Repeat(DecOp, n)[0] == DecOp && Repeat(DecOp, n)[1..] == Repeat(DecOp, n - 1);
    assert Run(b, Repeat(DecOp, n)) == Run(next, Repeat(DecOp, n - 1));
    if n > 1 {
      ReleasingEveryUnit(next, n - 1);
    }
  }

  /** A control block object. The ghost fields record what the C++ program
      does to memory (how often the pointee was destroyed, whether the block
      deleted itself) and which handles hold its units (`owners`). */
  class ControlBlock {
    const kind: Kind
    /** The address of the embedded obj_ of an owning block; null in an
        adopting block. */
    const storage: Ptr
    /** ControlBlockPointer::ptr_; null in an owning block. */
    const ptr: Ptr
    ghost const managed: Ptr
    var counter: nat
    ghost var destroyed: nat
    ghost var freed: bool
    ghost var owners: set<object>

    ghost function State(): Block
      reads this
    {
      Block(kind, managed, counter, destroyed, freed)
    }

    ghost predicate Valid()
      reads this
    {
      && Inv(State())
      && storage == (if kind == Owning then managed else Null)
      && ptr == (if kind == Adopting then managed else Null)
    }

    /** Every handle holding a unit is counted. */
    ghost predicate Counted()
      reads this
    {
      |owners| <= counter
    }

    /** ControlBlockOwning's constructor: the pointee is constructed in the
        block, at `addr`. The initial unit belongs to no handle yet. */
    constructor OwningBlock(addr: nat)
      ensures Valid() && State() == NewOwning(addr) && storage == At(addr)
      ensures owners == {}
    {
      kind, storage, ptr, managed := Owning, At(addr), Null, At(addr);
      counter := 1;
      destroyed, freed := 0, false;
      owners := {};
    }

    /** ControlBlockPointer's constructor, adopting `p`. */
    constructor PointerBlock(p: Ptr)
      ensures Valid() && State() == NewAdopting(p) && ptr == p
      ensures owners == {}
    {
      kind, storage, ptr, managed := Adopting, Null, p, p;
      counter := 1;
      destroyed, freed := 0, false;
      owners := {};
    }

    /** Hands the initial unit of a new block to handle `h`. */
    ghost method Claim(h: object)
      requires counter == 1 && owners == {}
      modifies this
      ensures State() == old(State()) && owners == {h} && Counted()
    {
      owners := {h};
    }

    /** A unit moves from handle `from` to handle `to`. */
    ghost method TransferOwner(from: object, to: object)
      requires from in owners
      modifies this
      ensures State() == old(State()) && owners == old(owners) - {from} + {to}
      ensures old(Counted()) ==> Counted()
    {
      owners := owners - {from} + {to};
    }

    /** IncrementCounter, on behalf of handle `h`. Every caller holds a unit
        already, so the block is live. */
    method IncrementCounter(ghost h: object)
      requires Valid() && !freed
      modifies this
      ensures Valid() && State() == Increment(old(State()))
      ensures owners == old(owners) + {h}
      ensures old(Counted()) ==> Counted()
    {
      counter := counter + 1;
      owners := owners + {h};
    }

    /** DecrementCounter, giving up the unit held by `h`. */
    method DecrementCounter(ghost h: object)
      requires Valid() && h in owners && counter >= 1
      modifies this
      ensures Valid() && State() == Decrement(old(State()))
      ensures owners == old(owners) - {h}
      ensures old(Counted()) ==> Counted()
    {
      counter := counter - 1;
      if counter == 0 {
        DeleteSelf();
      }
      owners := owners - {h};
    }

    /** `delete this`, with the virtual destructor of the concrete block. */
    method DeleteSelf()
      modifies this
      ensures State() == Delete(old(State())) && owners == old(owners)
    {
      freed := true;
      match kind
      case Owning =>
        destroyed := destroyed + 1;  // obj_.~T()
      case Adopting =>
        if managed.At? {
          destroyed := destroyed + 1;  // delete ptr_
        }
    }

    /** GetCounter: the counter, which covers every handle holding a unit and
        is positive exactly while the block is live. */
    function GetCounter(): (n: nat)
      reads this
      ensures Counted() ==> |owners| <= n
      ensures Valid() ==> (n == 0 <==> freed)
    {
      counter
    }

    /** ControlBlockOwning::GetPointer: the address of the embedded pointee,
        never null. */
    function GetPointer(): (p: Ptr)
      reads this
      requires kind == Owning
      ensures Valid() ==> p == managed && p.At?
    {
      storage
    }
  }
}
