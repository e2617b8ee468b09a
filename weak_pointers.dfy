/** SharedPtr (weak/shared.h) and WeakPtr (weak/weak.h) over the strong/weak
    control block. Each handle pairs an access pointer (`obj`, the C++
    observable_obj_) with a control block reference (`cb`, the C++ cb_); the
    two are independent, which is what the aliasing constructor exploits.
    A handle that holds a block holds one unit of it: a SharedPtr is one of the
    block's `owners`, a WeakPtr one of its `observers`. The C++ destructors are
    the methods named Destroy; the handle must not be used afterwards. */
module StrongWeakPointers {
  import opened Pointers
  import opened StrongWeakBlock

  /** The exception thrown when an expired WeakPtr is promoted. */
  datatype BadWeakPtr = BadWeakPtr

  /** Block `b`, if any, is exactly as it was. */
  twostate predicate Untouched(b: ControlBlock?)
    reads b
  {
    b != null ==>
      b.State() == old(b.State()) && b.owners == old(b.owners) && b.observers == old(b.observers)
  }

  /** Block `b`, if any, gained one strong unit, now held by `h`. */
  twostate predicate StrongAcquired(b: ControlBlock?, new h: object)
    reads b
  {
    b != null ==>
      && b.State() == IncStrong(old(b.State()))
      && b.owners == old(b.owners) + {h} && b.observers == old(b.observers)
  }

  /** Block `b`, if any, lost the strong unit that `h` held. */
  twostate predicate StrongReleased(b: ControlBlock?, h: object)
    reads b
  {
    b != null ==>
      && old(b.strong) >= 1 && b.State() == DecStrong(old(b.State()))
      && b.owners == old(b.owners) - {h} && b.observers == old(b.observers)
  }

  /** A strong unit of block `b`, if any, passed from `from` to `to`; no count changed. */
  twostate predicate StrongMoved(b: ControlBlock?, from: object, new to: object)
    reads b
  {
    b != null ==>
      && b.State() == old(b.State())
      && b.owners == old(b.owners) - {from} + {to} && b.observers == old(b.observers)
  }

  /** Block `b`, if any, gained one weak unit, now held by `h`. */
  twostate predicate WeakAcquired(b: ControlBlock?, new h: object)
    reads b
  {
    b != null ==>
      && b.State() == IncWeak(old(b.State()))
      && b.observers == old(b.observers) + {h} && b.owners == old(b.owners)
  }

  /** Block `b`, if any, lost the weak unit that `h` held. */
  twostate predicate WeakReleased(b: ControlBlock?, h: object)
    reads b
  {
    b != null ==>
      && old(b.weak) >= 1 && b.State() == DecWeak(old(b.State()))
      && b.observers == old(b.observers) - {h} && b.owners == old(b.owners)
  }

  /** A weak unit of block `b`, if any, passed from `from` to `to`; no count changed. */
  twostate predicate WeakMoved(b: ControlBlock?, from: object, new to: object)
    reads b
  {
    b != null ==>
      && b.State() == old(b.State())
      && b.observers == old(b.observers) - {from} + {to} && b.owners == old(b.owners)
  }

  class SharedPtr {
    var obj: Ptr
    var cb: ControlBlock?

    ghost predicate Valid()
      reads this, cb
    {
      cb != null ==> cb.Valid() && cb.Counted() && this in cb.owners
    }

    /** SharedPtr() and SharedPtr(nullptr). */
    constructor ()
      ensures obj == Null && cb == null && Valid()
    {
      obj, cb := Null, null;
    }

    /** SharedPtr(ControlBlockOwning<T>*), as MakeShared uses it: the handle
        takes the initial strong unit of a new owning block. */
    constructor FromOwning(block: ControlBlock)
      requires block.Valid() && block.kind == Owning && block.strong == 1 && block.weak == 0
      requires block.owners == {} && block.observers == {}
      modifies block
      ensures obj == block.storage && cb == block && Valid()
      ensures block.State() == old(block.State()) && block.owners == {this}
    {
      obj := block.GetPointer();
      cb := block;
      new;
      block.Claim(this);
    }

    /** explicit SharedPtr(T*): adopts `p` in a new ControlBlockPointer. */
    constructor FromRaw(p: Ptr)
      ensures obj == p && cb != null && fresh(cb) && Valid()
      ensures cb.State() == NewAdopting(p) && cb.owners == {this}
    {
      obj := p;
      var block := new ControlBlock.PointerBlock(p);
      cb := block;
      new;
      block.Claim(this);
    }

    /** The copy constructor: the block is shared and gains a strong unit iff
        there is one. */
    constructor Copy(other: SharedPtr)
      requires other.Valid()
      modifies other.cb
      ensures obj == other.obj && cb == other.cb && Valid() && other.Valid()
      ensures StrongAcquired(cb, this)
      ensures UseCount() == if cb == null then 0 else old(other.UseCount()) + 1
    {
      obj, cb := other.obj, other.cb;
      new;
      if cb != null {
        cb.IncStrongCounter(this);
      }
    }

    /** The move constructor: both fields move over, the source is left null,
        and no count changes. */
    constructor Move(other: SharedPtr)
      requires other.Valid()
      modifies other, other.cb
      ensures obj == old(other.obj) && cb == old(other.cb)
      ensures other.obj == Null && other.cb == null
      ensures Valid() && StrongMoved(cb, other, this)
    {
      obj, cb := other.obj, other.cb;
      new;
      other.obj, other.cb := Null, null;
      if cb != null {
        cb.TransferOwner(other, this);
      }
    }

    /** The aliasing constructor: access pointer `p`, lifetime governed by
        `other`'s block, which gains a strong unit iff there is one. */
    constructor Alias(other: SharedPtr, p: Ptr)
      requires other.Valid()
      modifies other.cb
      ensures obj == p && cb == other.cb && Valid() && other.Valid()
      ensures StrongAcquired(cb, this)
    {
      obj, cb := p, other.cb;
      new;
      if cb != null {
        cb.IncStrongCounter(this);
      }
    }

    /** The promoting constructor SharedPtr(const WeakPtr&) when it does not
        throw, i.e. when `other` is not expired. */
    constructor Promote(other: WeakPtr)
      requires other.Valid() && !other.Expired()
      modifies other.cb
      ensures obj == other.obj && cb == other.cb && cb != null && Valid() && other.Valid()
      ensures StrongAcquired(cb, this) && UseCount() == old(other.UseCount()) + 1
    {
      obj, cb := other.obj, other.cb;
      new;
      cb.IncStrongCounter(this);
    }

    /** SharedPtr(const WeakPtr&): throws BadWeakPtr iff `other` is expired,
        which includes a WeakPtr without a block; otherwise promotes. */
    static method FromWeak(other: WeakPtr) returns (r: Result<SharedPtr, BadWeakPtr>)
      requires other.Valid()
      modifies other.cb
      ensures r.Err? <==> old(other.Expired())
      ensures r.Err? ==> Untouched(other.cb)
      ensures r.Ok? ==> && fresh(r.value) && r.value.Valid() && other.Valid()
                        && r.value.obj == other.obj && r.value.cb == other.cb
                        && StrongAcquired(other.cb, r.value)
    {
      if other.Expired() {
        r := Err(BadWeakPtr);
      } else {
        var s := new SharedPtr.Promote(other);
        r := Ok(s);
      }
    }

    /** The destructor: gives up this handle's strong unit, if any. */
    method Destroy()
      requires Valid()
      modifies cb
      ensures StrongReleased(cb, this)
    {
      if cb != null {
        cb.DecStrongCounter(this);
      }
    }

    /** Swap: both fields are exchanged; the units move along, no count changes. */
    method Swap(other: SharedPtr)
      requires Valid() && other.Valid()
      modifies this, other, cb, other.cb
      ensures obj == old(other.obj) && cb == old(other.cb)
      ensures other.obj == old(obj) && other.cb == old(cb)
      ensures Valid() && other.Valid()
      ensures old(cb) == old(other.cb) ==> Untouched(cb)
      ensures old(cb) != old(other.cb) ==>
                StrongMoved(old(cb), this, other) && StrongMoved(old(other.cb), other, this)
    {
      ghost var a, b := cb, other.cb;
      obj, other.obj := other.obj, obj;
      cb, other.cb := other.cb, cb;
      if a != b {
        if a != null {
          a.TransferOwner(this, other);
        }
        if b != null {
          b.TransferOwner(other, this);
        }
      }
    }

    /** The second half of every copy-and-swap in the source,
        `SharedPtr{...}.Swap(*this)`: this handle swaps with the temporary
        `tmp`, which is then destroyed. This handle ends with `tmp`'s fields
        and unit, and the unit it held before is given up. */
    method ReplaceWith(tmp: SharedPtr)
      requires Valid() && tmp.Valid() && tmp != this
      requires cb != null && cb != tmp.cb ==> tmp !in cb.owners
      modifies this, tmp, cb, tmp.cb
      ensures obj == old(tmp.obj) && cb == old(tmp.cb) && Valid()
      ensures old(cb) == old(tmp.cb) ==> StrongReleased(cb, tmp)
      ensures old(cb) != old(tmp.cb) ==> StrongMoved(cb, tmp, this) && StrongReleased(old(cb), this)
    {
      tmp.Swap(this);
      tmp.Destroy();
    }

    /** Copy assignment, by copy-and-swap: afterwards this handle shares
        `other`'s block; when the blocks differ, the new one gained a unit and
        the old one lost one, and when they are the same (self-assignment
        included) nothing changed. */
    method Assign(other: SharedPtr)
      requires Valid() && other.Valid()
      modifies this, cb, other.cb
      ensures obj == old(other.obj) && cb == old(other.cb) && Valid() && other.Valid()
      ensures old(cb) == old(other.cb) ==> Untouched(cb)
      ensures old(cb) != old(other.cb) ==> StrongAcquired(cb, this) && StrongReleased(old(cb), this)
    {
      var tmp := new SharedPtr.Copy(other);
      ReplaceWith(tmp);
    }

    /** Move assignment, by move-and-swap: this handle takes over `other`'s
        fields and unit, `other` is left null, and the unit this handle held
        is given up. Self-move-assignment changes nothing. */
    method MoveAssign(other: SharedPtr)
      requires Valid() && other.Valid()
      modifies this, other, cb, other.cb
      ensures Valid() && other.Valid()
      ensures this == other ==> obj == old(obj) && cb == old(cb) && Untouched(cb)
      ensures this != other ==> && obj == old(other.obj) && cb == old(other.cb)
                                && other.obj == Null && other.cb == null
      ensures this != other && old(cb) == old(other.cb) ==> StrongReleased(cb, other)
      ensures this != other && old(cb) != old(other.cb) ==>
                StrongMoved(cb, other, this) && StrongReleased(old(cb), this)
    {
      var tmp := new SharedPtr.Move(other);
      ReplaceWith(tmp);
    }

    /** Reset(): gives up this handle's unit and leaves it null. */
    method Reset()
      requires Valid()
      modifies this, cb
      ensures obj == Null && cb == null && Valid() && UseCount() == 0
      ensures StrongReleased(old(cb), this)
    {
      var tmp := new SharedPtr();
      ReplaceWith(tmp);
    }

    /** Reset(T*): gives up this handle's unit and adopts `p` in a new block. */
    method ResetTo(p: Ptr)
      requires Valid()
      modifies this, cb
      ensures obj == p && cb != null && fresh(cb) && Valid() && UseCount() == 1
      ensures cb.State() == NewAdopting(p)
      ensures StrongReleased(old(cb), this)
    {
      var tmp := new SharedPtr.FromRaw(p);
      ReplaceWith(tmp);
    }

    /** Get() and operator->. */
    function Get(): (p: Ptr)
      reads this
      ensures p == obj
    {
      obj
    }

    /** explicit operator bool: looks at the access pointer only. */
    function ToBool(): (b: bool)
      reads this
      ensures b <==> Get() != Null
    {
      obj.At?
    }

    /** UseCount(): 0 without a block, else the strong count, which is at
        least the number of SharedPtr handles holding a unit of the block,
        this one included. */
    function UseCount(): (n: nat)
      reads this, cb
      requires Valid()
      ensures cb == null ==> n == 0
      ensures cb != null ==> 1 <= |cb.owners| <= n
    {
      if cb != null then cb.GetCounter() else 0
    }
  }

  class WeakPtr {
    var obj: Ptr
    var cb: ControlBlock?

    ghost predicate Valid()
      reads this, cb
    {
      cb != null ==> cb.Valid() && cb.Counted() && this in cb.observers
    }

    /** WeakPtr(): no block, hence expired with use count 0. */
    constructor ()
      ensures obj == Null && cb == null && Valid()
      ensures Expired() && UseCount() == 0
    {
      obj, cb := Null, null;
    }

    /** The copy constructor: the block gains a weak unit iff there is one. */
    constructor Copy(other: WeakPtr)
      requires other.Valid()
      modifies other.cb
      ensures obj == other.obj && cb == other.cb && Valid() && other.Valid()
      ensures WeakAcquired(cb, this)
    {
      obj, cb := other.obj, other.cb;
      new;
      if cb != null {
        cb.IncWeakCounter(this);
      }
    }

    /** The move constructor: fields move over, the source is left null, no
        count changes. */
    constructor Move(other: WeakPtr)
      requires other.Valid()
      modifies other, other.cb
      ensures obj == old(other.obj) && cb == old(other.cb)
      ensures other.obj == Null && other.cb == null
      ensures Valid() && WeakMoved(cb, other, this)
    {
      obj, cb := other.obj, other.cb;
      new;
      other.obj, other.cb := Null, null;
      if cb != null {
        cb.TransferObserver(other, this);
      }
    }

    /** Demotion, WeakPtr(const SharedPtr&): same access pointer and block;
        only the weak count moves. */
    constructor FromShared(other: SharedPtr)
      requires other.Valid()
      modifies other.cb
      ensures obj == other.obj && cb == other.cb && Valid() && other.Valid()
      ensures WeakAcquired(cb, this) && other.UseCount() == old(other.UseCount())
    {
      obj, cb := other.obj, other.cb;
      new;
      if cb != null {
        cb.IncWeakCounter(this);
      }
    }

    /** The destructor: gives up this handle's weak unit, if any; the block
        frees itself if that was its last reference. */
    method Destroy()
      requires Valid()
      modifies cb
      ensures WeakReleased(cb, this)
    {
      if cb != null {
        cb.DecWeakCounter(this);
      }
    }

    /** Swap: both fields are exchanged; no count changes. */
    method Swap(other: WeakPtr)
      requires Valid() && other.Valid()
      modifies this, other, cb, other.cb
      ensures obj == old(other.obj) && cb == old(other.cb)
      ensures other.obj == old(obj) && other.cb == old(cb)
      ensures Valid() && other.Valid()
      ensures old(cb) == old(other.cb) ==> Untouched(cb)
      ensures old(cb) != old(other.cb) ==>
                WeakMoved(old(cb), this, other) && WeakMoved(old(other.cb), other, this)
    {
      ghost var a, b := cb, other.cb;
      obj, other.obj := other.obj, obj;
      cb, other.cb := other.cb, cb;
      if a != b {
        if a != null {
          a.TransferObserver(this, other);
        }
        if b != null {
          b.TransferObserver(other, this);
        }
      }
    }

    /** The second half of every copy-and-swap in the source,
        `WeakPtr{...}.Swap(*this)`: this handle swaps with the temporary `tmp`,
        which is then destroyed. This handle ends with `tmp`'s fields and weak
        unit, and the weak unit it held before is given up. */
    method ReplaceWith(tmp: WeakPtr)
      requires Valid() && tmp.Valid() && tmp != this
      requires cb != null && cb != tmp.cb ==> tmp !in cb.observers
      modifies this, tmp, cb, tmp.cb
      ensures obj == old(tmp.obj) && cb == old(tmp.cb) && Valid()
      ensures old(cb) == old(tmp.cb) ==> WeakReleased(cb, tmp)
      ensures old(cb) != old(tmp.cb) ==> WeakMoved(cb, tmp, this) && WeakReleased(old(cb), this)
    {
      tmp.Swap(this);
      tmp.Destroy();
    }

    /** Copy assignment, by copy-and-swap: afterwards this handle observes
        `other`'s block; when the blocks differ, the new one gained a weak unit
        and the old one lost one, otherwise nothing changed. */
    method Assign(other: WeakPtr)
      requires Valid() && other.Valid()
      modifies this, cb, other.cb
      ensures obj == old(other.obj) && cb == old(other.cb) && Valid() && other.Valid()
      ensures old(cb) == old(other.cb) ==> Untouched(cb)
      ensures old(cb) != old(other.cb) ==> WeakAcquired(cb, this) && WeakReleased(old(cb), this)
    {
      var tmp := new WeakPtr.Copy(other);
      ReplaceWith(tmp);
    }

    /** Move assignment, by move-and-swap: this handle takes over `other`'s
        fields and weak unit, `other` is left null, and the weak unit this
        handle held is given up. Self-move-assignment changes nothing. */
    method MoveAssign(other: WeakPtr)
      requires Valid() && other.Valid()
      modifies this, other, cb, other.cb
      ensures Valid() && other.Valid()
      ensures this == other ==> obj == old(obj) && cb == old(cb) && Untouched(cb)
      ensures this != other ==> && obj == old(other.obj) && cb == old(other.cb)
                                && other.obj == Null && other.cb == null
      ensures this != other && old(cb) == old(other.cb) ==> WeakReleased(cb, other)
      ensures this != other && old(cb) != old(other.cb) ==>
                WeakMoved(cb, other, this) && WeakReleased(old(cb), this)
    {
      var tmp := new WeakPtr.Move(other);
      ReplaceWith(tmp);
    }

    /** Reset(): gives up this handle's weak unit and leaves it null. */
    method Reset()
      requires Valid()
      modifies this, cb
      ensures obj == Null && cb == null && Valid() && Expired()
      ensures WeakReleased(old(cb), this)
    {
      var tmp := new WeakPtr();
      ReplaceWith(tmp);
    }

    /** UseCount(): 0 without a block, else the block's strong count, which is
        0 once the pointee has been destroyed even though the block lives on. */
    function UseCount(): (n: nat)
      reads this, cb
      requires Valid()
      ensures cb == null ==> n == 0
      ensures cb != null ==> |cb.owners| <= n
      ensures Expired() ==> n == 0 || cb.managed == Null
    {
      if cb != null then cb.GetCounter() else 0
    }

    /** Expired(): true without a block, else the block's answer, which is
        true once the strong count has reached 0, whatever the weak count. */
    function Expired(): (e: bool)
      reads this, cb
      requires Valid()
      ensures e <==> cb == null || cb.strong == 0 || cb.managed == Null
    {
      if cb != null then cb.Expired() else true
    }

    /** Lock(): a null SharedPtr when expired; otherwise a SharedPtr with the
        same access pointer sharing the block, whose strong count rose by 1. */
    method Lock() returns (s: SharedPtr)
      requires Valid()
      modifies cb
      ensures fresh(s) && s.Valid() && Valid()
      ensures old(Expired()) ==> s.obj == Null && s.cb == null && s.UseCount() == 0 && Untouched(cb)
      ensures !old(Expired()) ==> && s.obj == obj && s.cb == cb
                                  && StrongAcquired(cb, s) && s.UseCount() == old(UseCount()) + 1
    {
      if cb == null || Expired() {
        s := new SharedPtr();
      } else {
        s := new SharedPtr.Promote(this);
      }
    }
  }

  /** MakeShared: one allocation, at `addr`, holding the block and the pointee
      constructed in place; the result is its only owner. */
  method MakeShared(addr: nat) returns (s: SharedPtr)
    ensures fresh(s) && s.cb != null && fresh(s.cb) && s.Valid()
    ensures s.Get() == At(addr) && s.UseCount() == 1
    ensures s.cb.State() == NewOwning(addr)
  {
    var block := new ControlBlock.OwningBlock(addr);
    s := new SharedPtr.FromOwning(block);
  }

  /** One pointee made by MakeShared, copied and observed by a WeakPtr: the
      counts are 1 and 2, and the WeakPtr sees 2 and a live pointee. */
  method SharingAndObserving(addr: nat) returns (made: nat, copied: nat, observed: nat, live: bool)
    ensures made == 1 && copied == 2 && observed == 2 && live
  {
    var s := MakeShared(addr);
    made := s.UseCount();
    var t := new SharedPtr.Copy(s);
    copied := s.UseCount();
    var w := new WeakPtr.FromShared(t);
    observed := w.UseCount();
    live := !w.Expired();
  }

  /** Once the last SharedPtr of a pointee is gone, a WeakPtr still observing
      the block reports expiry and a strong count of 0, and Lock hands out an
      empty SharedPtr. */
  method ExpiryAfterLastOwner(addr: nat) returns (expired: bool, left: nat, locked: nat)
    ensures expired && left == 0 && locked == 0
  {
    var s := MakeShared(addr);
    var t := new SharedPtr.Copy(s);
    var w := new WeakPtr.FromShared(s);
    s.Destroy();
    t.Destroy();
    expired := w.Expired();
    left := w.UseCount();
    var l := w.Lock();
    locked := l.UseCount();
  }

  /** An aliasing handle keeps the block alive after the handle it was made
      from is gone, and keeps its own access pointer throughout. */
  method AliasOutlivesOrigin(addr: nat, member: Ptr) returns (shared: nat, alone: nat, access: Ptr, alive: bool)
    ensures shared == 2 && alone == 1 && access == member && alive
  {
    var s := MakeShared(addr);
    var a := new SharedPtr.Alias(s, member);
    shared := s.UseCount();
    var w := new WeakPtr.FromShared(s);
    s.Destroy();
    alone := a.UseCount();
    access := a.Get();
    alive := !w.Expired();
  }

  /** Self-assignment, by copy or by move, leaves the handle and its count as
      they were. */
  method SelfAssignment(addr: nat) returns (afterCopy: nat, afterMove: nat, access: Ptr)
    ensures afterCopy == 1 && afterMove == 1 && access == At(addr)
  {
    var s := MakeShared(addr);
    s.Assign(s);
    afterCopy := s.UseCount();
    s.MoveAssign(s);
    afterMove := s.UseCount();
    access := s.Get();
  }

  /** Promoting an expired WeakPtr throws BadWeakPtr, and so does promoting
      one that never had a block; a live one promotes. */
  method Promotion(addr: nat) returns (live: bool, dead: bool, empty: bool)
    ensures live && !dead && !empty
  {
    var s := MakeShared(addr);
    var w := new WeakPtr.FromShared(s);
    var r := SharedPtr.FromWeak(w);
    live := r.Ok?;
    if r.Ok? {
      r.value.Destroy();
    }
    s.Destroy();
    var r2 := SharedPtr.FromWeak(w);
    dead := r2.Ok?;
    var n := new WeakPtr();
    var r3 := SharedPtr.FromWeak(n);
    empty := r3.Ok?;
  }
}
