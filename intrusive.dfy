/** The intrusive pointer of intrusive/intrusive.h: the reference count lives
    in the pointee itself. SimpleCounter is the counter, RefCounted the base
    the pointee type derives from (it embeds a counter and destroys the object
    through its deleter when the count returns to 0), and IntrusivePtr the
    handle, which holds nothing but a pointer to such an object. The pointee
    is modelled by its RefCounted part; pointer identity is object identity. */
module Intrusive {

  /** SimpleCounter: a count that starts at 0 and never goes below it. */
  class SimpleCounter {
    var count: nat
    /** The object whose counter_ member this is. */
    ghost var host: object?

    constructor ()
      ensures count == 0 && host == null
    {
      count := 0;
      host := null;
    }

    /** IncRef: one more, and the new count is returned. */
    method IncRef() returns (n: nat)
      modifies this
      ensures count == old(count) + 1 && n == count && host == old(host)
    {
      count := count + 1;
      n := count;
    }

    /** DecRef: one fewer, saturating at 0; the new count is returned. */
    method DecRef() returns (n: nat)
      modifies this
      ensures count == (if old(count) == 0 then 0 else old(count) - 1)
      ensures n == count && host == old(host)
    {
      if count == 0 {
        return 0;
      }
      count := count - 1;
      n := count;
    }

    /** RefCount: the current count. */
    function RefCount(): (n: nat)
      reads this
      ensures n == count
    {
      count
    }
  }

  /** RefCounted<Derived, SimpleCounter, Deleter>: the counter embedded in the
      pointee. The ghost fields record how often the deleter has destroyed the
      object and which IntrusivePtr handles hold one of its references. */
  class RefCounted {
    const counter: SimpleCounter
    ghost var destroyCount: nat
    ghost var holders: set<object>

    /** The counter is this object's own member, and an object someone still
        counts has not been destroyed. */
    ghost predicate Valid()
      reads this, counter
    {
      counter.host == this && (counter.count > 0 ==> destroyCount == 0)
    }

    /** The deleter has not destroyed the object yet. */
    ghost predicate Live()
      reads this
    {
      destroyCount == 0
    }

    /** Every handle holding the object is counted. */
    ghost predicate Counted()
      reads this, counter
    {
      |holders| <= counter.count
    }

    /** A new object (`new T{...}`): count 0, no handle. */
    constructor ()
      ensures Valid() && Live() && fresh(counter) && counter.count == 0 && holders == {}
    {
      counter := new SimpleCounter();
      destroyCount := 0;
      holders := {};
      new;
      counter.host := this;
    }

    /** IncRef, on behalf of handle `h`. */
    method IncRef(ghost h: object)
      requires Valid() && Live()
      modifies this, counter
      ensures Valid() && counter.count == old(counter.count) + 1 && destroyCount == old(destroyCount)
      ensures holders == old(holders) + {h}
      ensures old(Counted()) ==> Counted()
    {
      var _ := counter.IncRef();
      holders := holders + {h};
    }

    /** DecRef, giving up the reference of handle `h`: the counter's DecRef,
        and then Deleter::Destroy on this object whenever that returned 0,
        which includes a count that already was 0. */
    method DecRef(ghost h: object)
      requires Valid()
      modifies this, counter
      ensures Valid() && counter.count == (if old(counter.count) == 0 then 0 else old(counter.count) - 1)
      ensures destroyCount == old(destroyCount) + (if counter.count == 0 then 1 else 0)
      ensures holders == old(holders) - {h}
      ensures h in old(holders) && old(Counted()) ==> Counted()
    {
      var n := counter.DecRef();
      if n == 0 {
        destroyCount := destroyCount + 1;  // Deleter::Destroy(this)
      }
      holders := holders - {h};
    }

    /** A reference passes from handle `from` to handle `to`. */
    ghost method TransferHolder(from: object, to: object)
      requires from in holders
      modifies this
      ensures destroyCount == old(destroyCount) && holders == old(holders) - {from} + {to}
      ensures old(Counted()) ==> Counted()
    {
      holders := holders - {from} + {to};
    }

    /** RefCount: the embedded counter's count, which covers every handle. */
    function RefCount(): (n: nat)
      reads this, counter
      ensures Counted() ==> |holders| <= n
    {
      counter.RefCount()
    }
  }

  /** The objects making up the state of object `o`, if any. */
  function Parts(o: RefCounted?): set<object> {
    if o == null then {} else {o, o.counter}
  }

  /** Object `o`, if any, is exactly as it was. */
  twostate predicate Untouched(o: RefCounted?)
    reads Parts(o)
  {
    o != null ==>
      && o.counter.count == old(o.counter.count)
      && o.destroyCount == old(o.destroyCount) && o.holders == old(o.holders)
  }

  /** Object `o`, if any, gained a reference, now held by `h`. */
  twostate predicate Acquired(o: RefCounted?, new h: object)
    reads Parts(o)
  {
    o != null ==>
      && o.counter.count == old(o.counter.count) + 1
      && o.destroyCount == old(o.destroyCount) && o.holders == old(o.holders) + {h}
  }

  /** Object `o`, if any, lost the reference `h` held, and was destroyed iff
      that was the last one. */
  twostate predicate Released(o: RefCounted?, h: object)
    reads Parts(o)
  {
    o != null ==>
      && old(o.counter.count) >= 1 && o.counter.count == old(o.counter.count) - 1
      && o.destroyCount == old(o.destroyCount) + (if old(o.counter.count) == 1 then 1 else 0)
      && o.holders == old(o.holders) - {h}
  }

  /** A reference to `o`, if any, passed from `from` to `to`; no count changed. */
  twostate predicate Moved(o: RefCounted?, from: object, new to: object)
    reads Parts(o)
  {
    o != null ==>
      && o.counter.count == old(o.counter.count)
      && o.destroyCount == old(o.destroyCount) && o.holders == old(o.holders) - {from} + {to}
  }

  /** What a handle may be given: null, or a live object. */
  ghost predicate Adoptable(p: RefCounted?)
    reads Parts(p)
  {
    p != null ==> p.Valid() && p.Live() && p.Counted()
  }

  class IntrusivePtr {
    var ptr: RefCounted?

    ghost predicate Valid()
      reads this, Parts(ptr)
    {
      ptr != null ==> ptr.Valid() && ptr.Counted() && this in ptr.holders
    }

    /** IntrusivePtr() and IntrusivePtr(nullptr). */
    constructor ()
      ensures ptr == null && Valid()
    {
      ptr := null;
    }

    /** IntrusivePtr(T*): takes a reference to `p` iff it is not null. */
    constructor FromRaw(p: RefCounted?)
      requires Adoptable(p)
      modifies Parts(p)
      ensures ptr == p && Valid() && Acquired(p, this)
    {
      ptr := p;
      new;
      if p != null {
        p.IncRef(this);
      }
    }

    /** The copy constructor: one more reference iff not null. */
    constructor Copy(other: IntrusivePtr)
      requires other.Valid()
      modifies Parts(other.ptr)
      ensures ptr == other.ptr && Valid() && other.Valid()
      ensures Acquired(ptr, this)
      ensures UseCount() == if ptr == null then 0 else old(other.UseCount()) + 1
    {
      ptr := other.ptr;
      new;
      if ptr != null {
        ptr.IncRef(this);
      }
    }

    /** The move constructor: the pointer moves over, the source is left
        null, and no count changes. */
    constructor Move(other: IntrusivePtr)
      requires other.Valid()
      modifies other, Parts(other.ptr)
      ensures ptr == old(other.ptr) && other.ptr == null && Valid()
      ensures Moved(ptr, other, this)
    {
      ptr := other.ptr;
      new;
      other.ptr := null;
      if ptr != null {
        ptr.TransferHolder(other, this);
      }
    }

    /** Copy assignment. When the pointers differ, the old object loses a
        reference (and is destroyed if that was its last) and the new one
        gains one; when they are equal, self-assignment included, nothing
        happens. */
    method Assign(other: IntrusivePtr)
      requires Valid() && other.Valid()
      modifies this, Parts(ptr), Parts(other.ptr)
      ensures ptr == old(other.ptr) && Valid() && other.Valid()
      ensures old(ptr) == old(other.ptr) ==> Untouched(ptr)
      ensures old(ptr) != old(other.ptr) ==> Released(old(ptr), this) && Acquired(ptr, this)
    {
      if ptr != other.ptr {
        if ptr != null {
          ptr.DecRef(this);
        }
        ptr := other.ptr;
        if ptr != null {
          ptr.IncRef(this);
        }
      }
    }

    /** Move assignment. When the pointers differ, the old object loses a
        reference, this handle takes over `other`'s and `other` is left null;
        when they are equal, nothing happens, and `other` keeps its pointer. */
    method MoveAssign(other: IntrusivePtr)
      requires Valid() && other.Valid()
      modifies this, other, Parts(ptr), Parts(other.ptr)
      ensures Valid() && other.Valid()
      ensures old(ptr) == old(other.ptr) ==> ptr == old(ptr) && other.ptr == old(other.ptr) && Untouched(ptr)
      ensures old(ptr) != old(other.ptr) ==> && ptr == old(other.ptr) && other.ptr == null
                                             && Released(old(ptr), this) && Moved(ptr, other, this)
    {
      if ptr != other.ptr {
        if ptr != null {
          ptr.DecRef(this);
        }
        ptr := other.ptr;
        other.ptr := null;
        if ptr != null {
          ptr.TransferHolder(other, this);
        }
      }
    }

    /** The destructor: gives up the reference, if any. */
    method Destroy()
      requires Valid()
      modifies Parts(ptr)
      ensures ptr != null ==> ptr.Valid()
      ensures Released(ptr, this)
    {
      if ptr != null {
        ptr.DecRef(this);
      }
    }

    /** Swap: the pointers are exchanged and no count changes. */
    method Swap(other: IntrusivePtr)
      requires Valid() && other.Valid()
      modifies this, other, Parts(ptr), Parts(other.ptr)
      ensures ptr == old(other.ptr) && other.ptr == old(ptr)
      ensures Valid() && other.Valid()
      ensures old(ptr) == old(other.ptr) ==> Untouched(ptr)
      ensures old(ptr) != old(other.ptr) ==> Moved(old(ptr), this, other) && Moved(old(other.ptr), other, this)
    {
      ghost var a, b := ptr, other.ptr;
      ptr, other.ptr := other.ptr, ptr;
      if a != b {
        if a != null {
          a.TransferHolder(this, other);
        }
        if b != null {
          b.TransferHolder(other, this);
        }
      }
    }

    /** `IntrusivePtr{...}.Swap(*this)` as both Resets use it: this handle
        swaps with the temporary `tmp`, which is then destroyed. */
    method ReplaceWith(tmp: IntrusivePtr)
      requires Valid() && tmp.Valid() && tmp != this
      requires ptr != null && ptr != tmp.ptr ==> tmp !in ptr.holders
      modifies this, tmp, Parts(ptr), Parts(tmp.ptr)
      ensures ptr == old(tmp.ptr) && Valid()
      ensures old(ptr) == old(tmp.ptr) ==> Released(ptr, tmp)
      ensures old(ptr) != old(tmp.ptr) ==> Moved(ptr, tmp, this) && Released(old(ptr), this)
    {
      tmp.Swap(this);
      tmp.Destroy();
    }

    /** Reset(): gives up the reference and leaves the handle null. */
    method Reset()
      requires Valid()
      modifies this, Parts(ptr)
      ensures ptr == null && Valid() && UseCount() == 0
      ensures Released(old(ptr), this)
    {
      var tmp := new IntrusivePtr();
      ReplaceWith(tmp);
    }

    /** Reset(T*): takes a reference to `p`, then gives up the old one; when
        `p` is the object already held the count ends where it started. */
    method ResetTo(p: RefCounted?)
      requires Valid() && Adoptable(p)
      modifies this, Parts(ptr), Parts(p)
      ensures ptr == p && Valid()
      ensures old(ptr) == p ==> Untouched(p)
      ensures old(ptr) != p ==> Released(old(ptr), this) && Acquired(p, this)
    {
      var tmp := new IntrusivePtr.FromRaw(p);
      ReplaceWith(tmp);
    }

    /** Get() and operator->. */
    function Get(): (p: RefCounted?)
      reads this, Parts(ptr)
      ensures p == ptr
      ensures Valid() && p != null ==> p.Live() && p.RefCount() >= 1
    {
      ptr
    }

    /** explicit operator bool. */
    function ToBool(): (b: bool)
      reads this
      ensures b <==> ptr != null
    {
      ptr != null
    }

    /** UseCount(): 0 for null, else the object's RefCount, which is at least
        the number of handles holding it, this one included. */
    function UseCount(): (n: nat)
      reads this, Parts(ptr)
      requires Valid()
      ensures ptr == null ==> n == 0
      ensures ptr != null ==> 1 <= |ptr.holders| <= n
    {
      if ptr != null then ptr.RefCount() else 0
    }
  }

  /** MakeIntrusive: a new object, adopted by a new handle, which is its only
      reference. */
  method MakeIntrusive() returns (h: IntrusivePtr)
    ensures fresh(h) && h.ptr != null && fresh(h.ptr) && h.Valid() && h.UseCount() == 1
  {
    var o := new RefCounted();
    h := new IntrusivePtr.FromRaw(o);
  }

  /** Two handles on one object: assigning one to the other changes nothing,
      dropping one leaves the count at 1 and the object alive, and dropping
      the last destroys the object exactly once. */
  method LifeCycle() returns (made: nat, copied: nat, reassigned: nat, dropped: nat, ghost destroyed: nat)
    ensures made == 1 && copied == 2 && reassigned == 2 && dropped == 1 && destroyed == 1
  {
    var h := MakeIntrusive();
    made := h.UseCount();
    var c := new IntrusivePtr.Copy(h);
    copied := h.UseCount();
    c.Assign(h);
    reassigned := h.UseCount();
    var o := h.Get();
    c.Destroy();
    dropped := h.UseCount();
    h.Destroy();
    destroyed := o.destroyCount;
  }

  /** Moving between handles of different objects: the target's old object
      is destroyed, the moved object keeps its count, and the source is left
      null. */
  method MoveBetweenObjects() returns (moved: nat, source: nat, ghost oldDestroyed: nat)
    ensures moved == 1 && source == 0 && oldDestroyed == 1
  {
    var a := MakeIntrusive();
    var b := MakeIntrusive();
    var first := a.Get();
    a.MoveAssign(b);
    moved := a.UseCount();
    source := b.UseCount();
    oldDestroyed := first.destroyCount;
  }

  /** The counter saturates: a DecRef on an object nobody holds leaves the
      count at 0, and RefCounted::DecRef still hands the object to its
      deleter, since the counter's DecRef returned 0. */
  method UnheldDecRef() returns (count: nat, ghost destroyed: nat)
    ensures count == 0 && destroyed == 1
  {
    var o := new RefCounted();
    var nobody := new IntrusivePtr();
    o.DecRef(nobody);
    count := o.RefCount();
    destroyed := o.destroyCount;
  }
}
