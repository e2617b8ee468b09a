/** SharedPtr of shared/shared.h over the single-counter control block. As in
    the strong/weak version, a handle pairs an access pointer (`obj`, the C++
    observable_obj_) with a control block reference (`cb`, the C++ cb_), and a
    handle that holds a block holds one unit of it: it is one of the block's
    `owners`. The destructor is the method named Destroy; the handle must not
    be used afterwards. */
module SharedPointers {
  import opened Pointers
  import opened SharedBlock

  /** Block `b`, if any, is exactly as it was. */
  twostate predicate Untouched(b: ControlBlock?)
    reads b
  {
    b != null ==> b.State() == old(b.State()) && b.owners == old(b.owners)
  }

  /** Block `b`, if any, gained one unit, now held by `h`. */
  twostate predicate Acquired(b: ControlBlock?, new h: object)
    reads b
  {
    b != null ==> b.State() == Increment(old(b.State())) && b.owners == old(b.owners) + {h}
  }

  /** Block `b`, if any, lost the unit that `h` held. */
  twostate predicate Released(b: ControlBlock?, h: object)
    reads b
  {
    b != null ==>
      && old(b.counter) >= 1 && b.State() == Decrement(old(b.State()))
      && b.owners == old(b.owners) - {h}
  }

  /** A unit of block `b`, if any, passed from `from` to `to`; the count did
      not change. */
  twostate predicate Moved(b: ControlBlock?, from: object, new to: object)
    reads b
  {
    b != null ==> b.State() == old(b.State()) && b.owners == old(b.owners) - {from} + {to}
  }

  class SharedPtr {
    var obj: Ptr
    var cb: ControlBlock?

    ghost predicate Valid()
      reads this, cb
    {
      cb != null ==> cb.Valid() && cb.Counted() && this in cb.owners
    }

    /** SharedPtr() and SharedPtr(nullptr). */
    constructor ()
      ensures obj == Null && cb == null && Valid()
    {
      obj, cb := Null, null;
    }

    /** SharedPtr(ControlBlockOwning<T>*), as MakeShared uses it: the handle
        takes the initial unit of a new owning block and points at its
        embedded pointee. */
    constructor FromOwning(block: ControlBlock)
      requires block.Valid() && block.kind == Owning && block.counter == 1 && block.owners == {}
      modifies block
      ensures obj == block.managed && obj.At? && cb == block && Valid()
      ensures block.State() == old(block.State()) && block.owners == {this}
    {
      obj := block.GetPointer();
      cb := block;
      new;
      block.Claim(this);
    }

    /** explicit SharedPtr(T*): adopts `p`, even a null one, in a new
        ControlBlockPointer. */
    constructor FromRaw(p: Ptr)
      ensures obj == p && cb != null && fresh(cb) && Valid()
      ensures cb.State() == NewAdopting(p) && cb.owners == {this}
    {
      obj := p;
      var block := new ControlBlock.PointerBlock(p);
      cb := block;
      new;
      block.Claim(this);
    }

    /** The copy constructor: the block is shared and gains a unit iff there
        is one. */
    constructor Copy(other: SharedPtr)
      requires other.Valid()
      modifies other.cb
      ensures obj == other.obj && cb == other.cb && Valid() && other.Valid()
      ensures Acquired(cb, this)
      ensures UseCount() == if cb == null then 0 else old(other.UseCount()) + 1
    {
      obj, cb := other.obj, other.cb;
      new;
      if cb != null {
        cb.IncrementCounter(this);
      }
    }

    /** The move constructor: both fields move over, the source is left null,
        and the count does not change. */
    constructor Move(other: SharedPtr)
      requires other.Valid()
      modifies other, other.cb
      ensures obj == old(other.obj) && cb == old(other.cb)
      ensures other.obj == Null && other.cb == null
      ensures Valid() && Moved(cb, other, this)
    {
      obj, cb := other.obj, other.cb;
      new;
      other.obj, other.cb := Null, null;
      if cb != null {
        cb.TransferOwner(other, this);
      }
    }

    /** The aliasing constructor: access pointer `p`, lifetime governed by
        `other`'s block, which gains a unit iff there is one. */
    constructor Alias(other: SharedPtr, p: Ptr)
      requires other.Valid()
      modifies other.cb
      ensures obj == p && cb == other.cb && Valid() && other.Valid()
      ensures Acquired(cb, this)
    {
      obj, cb := p, other.cb;
      new;
      if cb != null {
        cb.IncrementCounter(this);
      }
    }

    /** The destructor: gives up this handle's unit, if any; the block deletes
        itself, and its pointee, if that was the last one. */
    method Destroy()
      requires Valid()
      modifies cb
      ensures Released(cb, this)
    {
      if cb != null {
        cb.DecrementCounter(this);
      }
    }

    /** Swap: both fields are exchanged; the units move along, the counts do
        not change. */
    method Swap(other: SharedPtr)
      requires Valid() && other.Valid()
      modifies this, other, cb, other.cb
      ensures obj == old(other.obj) && cb == old(other.cb)
      ensures other.obj == old(obj) && other.cb == old(cb)
      ensures Valid() && other.Valid()
      ensures old(cb) == old(other.cb) ==> Untouched(cb)
      ensures old(cb) != old(other.cb) ==> Moved(old(cb), this, other) && Moved(old(other.cb), other, this)
    {
      ghost var a, b := cb, other.cb;
      obj, other.obj := other.obj, obj;
      cb, other.cb := other.cb, cb;
      if a != b {
        if a != null {
          a.TransferOwner(this, other);
        }
        if b != null {
          b.TransferOwner(other, this);
        }
      }
    }

    /** The second half of every copy-and-swap in the source,
        `SharedPtr{...}.Swap(*this)`: this handle swaps with the temporary
        `tmp`, which is then destroyed. This handle ends with `tmp`'s fields
        and unit, and the unit it held before is given up. */
    method ReplaceWith(tmp: SharedPtr)
      requires Valid() && tmp.Valid() && tmp != this
      requires cb != null && cb != tmp.cb ==> tmp !in cb.owners
      modifies this, tmp, cb, tmp.cb
      ensures obj == old(tmp.obj) && cb == old(tmp.cb) && Valid()
      ensures old(cb) == old(tmp.cb) ==> Released(cb, tmp)
      ensures old(cb) != old(tmp.cb) ==> Moved(cb, tmp, this) && Released(old(cb), this)
    {
      tmp.Swap(this);
      tmp.Destroy();
    }

    /** Copy assignment, by copy-and-swap: afterwards this handle shares
        `other`'s block; when the blocks differ, the new one gained a unit and
        the old one lost one, and when they are the same (self-assignment
        included) nothing changed. */
    method Assign(other: SharedPtr)
      requires Valid() && other.Valid()
      modifies this, cb, other.cb
      ensures obj == old(other.obj) && cb == old(other.cb) && Valid() && other.Valid()
      ensures old(cb) == old(other.cb) ==> Untouched(cb)
      ensures old(cb) != old(other.cb) ==> Acquired(cb, this) && Released(old(cb), this)
    {
      var tmp := new SharedPtr.Copy(other);
      ReplaceWith(tmp);
    }

    /** Move assignment, by move-and-swap: this handle takes over `other`'s
        fields and unit, `other` is left null, and the unit this handle held
        is given up. Self-move-assignment changes nothing. */
    method MoveAssign(other: SharedPtr)
      requires Valid() && other.Valid()
      modifies this, other, cb, other.cb
      ensures Valid() && other.Valid()
      ensures this == other ==> obj == old(obj) && cb == old(cb) && Untouched(cb)
      ensures this != other ==> && obj == old(other.obj) && cb == old(other.cb)
                                && other.obj == Null && other.cb == null
      ensures this != other && old(cb) == old(other.cb) ==> Released(cb, other)
      ensures this != other && old(cb) != old(other.cb) ==>
                Moved(cb, other, this) && Released(old(cb), this)
    {
      var tmp := new SharedPtr.Move(other);
      ReplaceWith(tmp);
    }

    /** Reset(): gives up this handle's unit and leaves it null. */
    method Reset()
      requires Valid()
      modifies this, cb
      ensures obj == Null && cb == null && Valid() && UseCount() == 0
      ensures Released(old(cb), this)
    {
      var tmp := new SharedPtr();
      ReplaceWith(tmp);
    }

    /** Reset(T*): gives up this handle's unit and adopts `p` in a new block. */
    method ResetTo(p: Ptr)
      requires Valid()
      modifies this, cb
      ensures obj == p && cb != null && fresh(cb) && Valid() && UseCount() == 1
      ensures cb.State() == NewAdopting(p)
      ensures Released(old(cb), this)
    {
      var tmp := new SharedPtr.FromRaw(p);
      ReplaceWith(tmp);
    }

    /** Get() and operator->. */
    function Get(): (p: Ptr)
      reads this
      ensures p == obj
    {
      obj
    }

    /** explicit operator bool: looks at the access pointer only. */
    function ToBool(): (b: bool)
      reads this
      ensures b <==> Get() != Null
    {
      obj.At?
    }

    /** UseCount(): 0 without a block, else its counter, which is at least
        the number of handles holding the block, this one included. */
    function UseCount(): (n: nat)
      reads this, cb
      requires Valid()
      ensures cb == null ==> n == 0
      ensures cb != null ==> 1 <= |cb.owners| <= n
    {
      if cb != null then cb.GetCounter() else 0
    }
  }

  /** MakeShared: one allocation, at `addr`, holding the block and the pointee
      it embeds; the result points at that pointee and is its only owner. */
  method MakeShared(addr: nat) returns (s: SharedPtr)
    ensures fresh(s) && s.cb != null && fresh(s.cb) && s.Valid()
    ensures s.Get() == At(addr) && s.UseCount() == 1
    ensures s.cb.State() == NewOwning(addr)
  {
    var block := new ControlBlock.OwningBlock(addr);
    s := new SharedPtr.FromOwning(block);
  }

  /** Copies share one block and one count; after a Reset the handle is
      empty and the other copy is left as the only owner; the pointee goes
      when that one is destroyed. */
  method CopiesAndReset(addr: nat) returns (made: nat, copied: nat, reset: nat, left: nat, access: Ptr)
    ensures made == 1 && copied == 2 && reset == 0 && left == 1 && access == At(addr)
  {
    var s := MakeShared(addr);
    made := s.UseCount();
    var t := new SharedPtr.Copy(s);
    copied := t.UseCount();
    s.Reset();
    reset := s.UseCount();
    left := t.UseCount();
    access := t.Get();
    t.Destroy();
  }

  /** Self-assignment, by copy or by move, leaves the handle and its count as
      they were; so does assigning a copy that shares the block. */
  method SelfAssignment(addr: nat) returns (afterSelf: nat, afterMove: nat, afterShared: nat)
    ensures afterSelf == 1 && afterMove == 1 && afterShared == 2
  {
    var s := MakeShared(addr);
    s.Assign(s);
    afterSelf := s.UseCount();
    s.MoveAssign(s);
    afterMove := s.UseCount();
    var t := new SharedPtr.Copy(s);
    s.Assign(t);
    afterShared := s.UseCount();
  }

  /** An aliasing handle shares the count of the handle it was made from and
      keeps the block alive after that handle is gone; it tests true iff the
      pointer it was given is not null, even though it owns a live block. */
  method AliasKeepsBlock(addr: nat, member: Ptr) returns (shared: nat, alone: nat, access: Ptr, nonNull: bool)
    ensures shared == 2 && alone == 1 && access == member
    ensures nonNull <==> member != Null
  {
    var s := MakeShared(addr);
    var a := new SharedPtr.Alias(s, member);
    shared := s.UseCount();
    s.Destroy();
    alone := a.UseCount();
    access := a.Get();
    nonNull := a.ToBool();
  }
}
