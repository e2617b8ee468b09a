# Verified model of my-smart-pointers

This project models the four ownership handles of the C++ library
my-smart-pointers and proves how their reference counts behave.

- **Strong/weak shared pointer** (`weak/shared.h`, `weak/weak.h`).
  - A control block keeps a strong and a weak counter.
  - The pointee is destroyed when the strong count reaches 0.
  - The block frees itself once both counters are 0.
  - `SharedPtr` holds a strong unit; `WeakPtr` holds a weak unit and can be promoted.
  - Files: `weak_block.dfy` (module `StrongWeakBlock`), `weak_pointers.dfy` (module `StrongWeakPointers`).
- **Single-counter shared pointer** (`shared/shared.h`).
  - The block deletes itself, and its pointee with it, when its only counter reaches 0.
  - Files: `shared_block.dfy` (`SharedBlock`), `shared_pointers.dfy` (`SharedPointers`).
- **Intrusive pointer** (`intrusive/intrusive.h`).
  - The count lives in the pointee: a `SimpleCounter` that saturates at 0, inside `RefCounted`, which calls its deleter when the count returns to 0.
  - File: `intrusive.dfy` (`Intrusive`).
- **Unique pointer** (`unique/unique.h`).
  - Exclusive ownership of one pointer together with a deleter.
  - File: `unique.dfy` (`Unique`).
- **Shared types.** `pointers.dfy` (`Pointers`) holds the raw pointer value `Ptr = Null | At(addr)`, a `Result` type and `Repeat(x, n)`, the sequence of `n` copies of `x`, which the control-block proofs use for their handle lists.

Each control block is described twice.

1. **As a value.** A `Block` datatype comes with one pure function per counter operation: `IncStrong`, `DecStrong`, `DecWeak`, `Decrement`, and so on. `Run` executes any sequence of operations and stops at the first misuse (use after free, releasing a counter that is 0, raising a strong count that already reached 0). Lemmas over `Run` state the lifetime invariants.
2. **As a class.** The class has the source's fields and methods, each proved to change the state exactly as the matching function says: `State() == DecStrong(old(State()))`.

The class also carries ghost fields for what C++ does to memory:

- how often the pointee's destructor ran (`destroyed`, `destroyCount`);
- whether the block deleted itself (`freed`);
- which handles hold a unit (`owners`, `observers`, `holders`).

Handles are classes whose fields are the C++ members. Copy-and-swap (`X{...}.Swap(*this)`) is modelled literally: build a temporary handle, then `ReplaceWith(tmp)`, which swaps with it and destroys it. A handle "holding" a block means it is a member of the block's `owners` (or `observers`). Every handle's `Valid()` says the counter covers all holders.

Scenario methods run short sequences of operations on fresh objects and state the observable results. Their names are `ExpiryAfterLastOwner`, `SelfAssignment`, `Promotion`, `MoveAssignBetween`, and similar. One example: after `MakeShared`, a copy and a demotion, both shared handles are destroyed; the weak handle is then expired with use count 0, and `Lock` yields an empty handle.

Where the code and its written description disagree, the model follows the code:

- **Adopting a null `T*`.** A weak/strong block built this way is expired from the start, because `Expired()` is `!ptr_` (weak/shared.h:92-94). It is not only expired once the strong count reaches 0. `StrongWeakBlock.IsExpired` states it this way.
- **`WeakPtr::UseCount`.** It returns the block's strong count even when expired (weak/weak.h:83-88). That count is 0 once the strong count has run down, but it is 1 for a live block adopting a null pointer, which is expired. `StrongWeakPointers.WeakPtr.UseCount` states both.
- **`RefCounted::DecRef`.** It hands the object to its deleter whenever the counter's `DecRef` returns 0. That includes a counter that was already 0 (intrusive/intrusive.h:13-18, 45-49). `Intrusive.UnheldDecRef` exhibits it.
- **Intrusive move assignment.** When both handles hold the same pointer, the source keeps its pointer (intrusive/intrusive.h:132-142).

## Model

| member | source | states |
|---|---|---|
| StrongWeakBlock.IsExpired | weak/shared.h:73-94 | in a reachable state the block is expired iff the strong count is 0 or it adopted a null pointer |
| StrongWeakBlock.InPlacePointer | weak/shared.h:59-64 | the in-place pointee while the strong count is positive, null afterwards |
| StrongWeakBlock.NewOwning | weak/shared.h:47-57 | a new owning block: strong 1, weak 0, pointee alive at its storage, not expired |
| StrongWeakBlock.NewAdopting | weak/shared.h:84-85 | a new adopting block: strong 1, weak 0; expired from the start iff the adopted pointer is null |
| StrongWeakBlock.DestroyPointee | weak/shared.h:66-90 | OnZeroStrong leaves the block expired, destroys the pointee at most once more, and is idempotent |
| StrongWeakBlock.IncStrong | weak/shared.h:11-13 | the block with the strong count one higher and every other field as before; expiry is unchanged; a positive count keeps the invariant |
| StrongWeakBlock.DecStrong | weak/shared.h:15-23 | the pointee is destroyed exactly at the 1 -> 0 transition; the block frees itself then iff weak is 0; above 1 only the count changes |
| StrongWeakBlock.IncWeak | weak/shared.h:27-29 | the block with the weak count one higher and every other field as before; expiry is unchanged; a block not yet freed keeps the invariant |
| StrongWeakBlock.DecWeak | weak/shared.h:31-36 | the block frees itself iff the last weak unit goes while strong is 0; the pointee is untouched |
| StrongWeakBlock.Step | weak/shared.h:10-48 | an operation succeeds iff it is not a misuse; it preserves the invariant; it destroys the pointee only at the last strong release; a freed block has both counters 0 |
| StrongWeakBlock.Run | weak/shared.h:10-48 | any run from a reachable state stays reachable; the pointee is destroyed at most once; a freed block admits no operation |
| StrongWeakBlock.ExpiryIsPermanent | weak/shared.h:66-94 | once expired, no run un-expires the block or destroys the pointee again |
| StrongWeakBlock.PointeeDiesBeforeBlock | weak/shared.h:15-36 | a freed block has destroyed its pointee exactly once; a destroyed pointee means strong is 0 |
| StrongWeakBlock.ReleasingEveryStrongUnit | weak/shared.h:15-23 | releasing all strong units destroys the pointee once, at the last; the block is freed then iff weak is 0 |
| StrongWeakBlock.ReleasingEveryWeakUnit | weak/shared.h:31-36 | with strong 0, releasing all weak units frees the block at the last one, the pointee untouched |
| StrongWeakBlock.ControlBlock.OwningBlock | weak/shared.h:54-57 | the constructor yields the state NewOwning(addr) |
| StrongWeakBlock.ControlBlock.PointerBlock | weak/shared.h:84-85 | the constructor yields the state NewAdopting(p) |
| StrongWeakBlock.ControlBlock.IncStrongCounter | weak/shared.h:11-13 | the new state is IncStrong of the old; the caller becomes an owner |
| StrongWeakBlock.ControlBlock.DecStrongCounter | weak/shared.h:15-23 | the new state is DecStrong of the old; the caller stops being an owner |
| StrongWeakBlock.ControlBlock.OnZeroStrong | weak/shared.h:66-90 | the new state is DestroyPointee of the old, for both kinds |
| StrongWeakBlock.ControlBlock.IncWeakCounter | weak/shared.h:27-29 | the new state is IncWeak of the old |
| StrongWeakBlock.ControlBlock.DecWeakCounter | weak/shared.h:31-36 | the new state is DecWeak of the old |
| StrongWeakBlock.ControlBlock.Expired | weak/shared.h:73-94 | equals IsExpired of the state: strong is 0 or the adopted pointer was null |
| StrongWeakBlock.ControlBlock.GetCounter | weak/shared.h:40-42 | the strong count, at least the number of owners |
| StrongWeakBlock.ControlBlock.GetPointer | weak/shared.h:59-64 | the storage address while strong is positive, null afterwards |
| StrongWeakPointers.SharedPtr.constructor | weak/shared.h:113-115 | null access pointer and no block |
| StrongWeakPointers.SharedPtr.FromOwning | weak/shared.h:117-117 | takes the initial unit of an owning block and points at its storage |
| StrongWeakPointers.SharedPtr.FromRaw | weak/shared.h:119-122 | a fresh adopting block for p, held by this handle alone |
| StrongWeakPointers.SharedPtr.Copy | weak/shared.h:130-136 | same fields; the strong count rises by 1 iff there is a block |
| StrongWeakPointers.SharedPtr.Move | weak/shared.h:138-142 | both fields move over; the source is null; the counts are unchanged |
| StrongWeakPointers.SharedPtr.Alias | weak/shared.h:162-167 | access pointer p; shares the other's block, whose strong count rises by 1 iff it exists |
| StrongWeakPointers.SharedPtr.Promote | weak/shared.h:171-178 | from a non-expired weak handle: same fields, and the strong count rises by 1 |
| StrongWeakPointers.SharedPtr.FromWeak | weak/shared.h:171-178 | fails with BadWeakPtr iff the weak handle is expired (including no block), leaving the block untouched; otherwise promotes |
| StrongWeakPointers.SharedPtr.Destroy | weak/shared.h:201-205 | releases this handle's strong unit, if any, as DecStrong says |
| StrongWeakPointers.SharedPtr.Swap | weak/shared.h:223-226 | both fields are exchanged and no count changes |
| StrongWeakPointers.SharedPtr.ReplaceWith | weak/shared.h:183-196 | after swapping with a temporary and destroying it, this handle has the temporary's fields and the old unit is released |
| StrongWeakPointers.SharedPtr.Assign | weak/shared.h:183-191 | this handle shares the other's block; with different blocks the new one gains a unit and the old one loses one; with the same block, self-assignment included, nothing changes |
| StrongWeakPointers.SharedPtr.MoveAssign | weak/shared.h:193-196 | takes the other's fields and unit and nulls the source; the old unit is released; self-move-assignment changes nothing |
| StrongWeakPointers.SharedPtr.Reset | weak/shared.h:210-212 | the old unit is released; the handle is null with UseCount 0 |
| StrongWeakPointers.SharedPtr.ResetTo | weak/shared.h:214-216 | the old unit is released; p is adopted by a fresh block with UseCount 1 |
| StrongWeakPointers.SharedPtr.Get | weak/shared.h:231-233 | the access pointer, whatever the block holds (an alias may point elsewhere) |
| StrongWeakPointers.SharedPtr.ToBool | weak/shared.h:251-256 | true iff Get is not null, whatever the block holds: a null alias over a live block is false |
| StrongWeakPointers.SharedPtr.UseCount | weak/shared.h:244-249 | 0 without a block, else the strong count, at least the number of owners (at least 1) |
| StrongWeakPointers.WeakPtr.constructor | weak/weak.h:19-20 | no block: expired, UseCount 0 |
| StrongWeakPointers.WeakPtr.Copy | weak/weak.h:22-28 | same fields; the weak count rises by 1 iff there is a block |
| StrongWeakPointers.WeakPtr.Move | weak/weak.h:30-34 | fields move over; the source is null; no count changes |
| StrongWeakPointers.WeakPtr.FromShared | weak/weak.h:38-44 | same fields; only the weak count rises, the strong count is unchanged |
| StrongWeakPointers.WeakPtr.Destroy | weak/weak.h:62-66 | releases this handle's weak unit, if any, freeing the block when DecWeak says so |
| StrongWeakPointers.WeakPtr.Swap | weak/weak.h:75-78 | both fields are exchanged and no count changes |
| StrongWeakPointers.WeakPtr.ReplaceWith | weak/weak.h:49-57 | after swapping with a temporary and destroying it, this handle has the temporary's fields and the old weak unit is released |
| StrongWeakPointers.WeakPtr.Assign | weak/weak.h:49-52 | observes the other's block; with different blocks the new one gains a weak unit and the old one loses one; otherwise nothing changes |
| StrongWeakPointers.WeakPtr.MoveAssign | weak/weak.h:54-57 | takes the other's fields and weak unit, nulls the source; the old weak unit is released; self-move changes nothing |
| StrongWeakPointers.WeakPtr.Reset | weak/weak.h:71-73 | the old weak unit is released; the handle is null and expired |
| StrongWeakPointers.WeakPtr.UseCount | weak/weak.h:83-88 | 0 without a block, else the strong count; when expired that is 0 unless the block adopted a null pointer |
| StrongWeakPointers.WeakPtr.Expired | weak/weak.h:90-95 | true iff there is no block, its strong count reached 0, or it adopted a null pointer |
| StrongWeakPointers.WeakPtr.Lock | weak/weak.h:97-102 | when expired, a null handle with UseCount 0 and the block untouched; otherwise a handle on the same block and access pointer, with the strong count up by exactly 1 |
| StrongWeakPointers.MakeShared | weak/shared.h:267-271 | a fresh owning block; the handle points at its pointee and has UseCount 1 |
| StrongWeakPointers.SharingAndObserving | weak/weak.h:38-44 | counts 1 and 2 through MakeShared and a copy; a WeakPtr demoted from the copy sees UseCount 2 and a live pointee |
| StrongWeakPointers.ExpiryAfterLastOwner | weak/weak.h:83-102 | after both SharedPtr handles go, the WeakPtr is expired with UseCount 0 and Lock yields a handle with UseCount 0 |
| StrongWeakPointers.AliasOutlivesOrigin | weak/shared.h:162-167 | an alias shares the count 2, keeps its access pointer, and keeps the pointee alive after the original is gone |
| StrongWeakPointers.SelfAssignment | weak/shared.h:183-196 | self copy- and move-assignment leave UseCount 1 and the access pointer as it was |
| StrongWeakPointers.Promotion | weak/shared.h:171-178 | promotion succeeds on a live weak handle and fails on an expired one and on one without a block |
| SharedBlock.NewOwning | shared/shared.h:29-36 | a new owning block: counter 1, pointee alive |
| SharedBlock.NewAdopting | shared/shared.h:48-49 | a new adopting block: counter 1 |
| SharedBlock.Delete | shared/shared.h:51-53 | deleting the block destroys the embedded pointee, or the adopted one unless it is null |
| SharedBlock.Increment | shared/shared.h:11-13 | only the counter rises; a live block keeps the invariant |
| SharedBlock.Decrement | shared/shared.h:15-20 | the block is freed, and its pointee destroyed, exactly when the counter goes 1 -> 0 |
| SharedBlock.Step | shared/shared.h:10-30 | an operation succeeds iff the block is not freed; it preserves the invariant; it destroys only at the last release |
| SharedBlock.Run | shared/shared.h:10-30 | any run stays reachable; the pointee is destroyed at most once; a freed block admits no operation |
| SharedBlock.ReleasingEveryUnit | shared/shared.h:15-20 | releasing n of the units leaves counter - n; the last release frees the block and destroys the pointee once |
| SharedBlock.ControlBlock.OwningBlock | shared/shared.h:35-36 | the constructor yields NewOwning(addr) |
| SharedBlock.ControlBlock.PointerBlock | shared/shared.h:48-49 | the constructor yields NewAdopting(p) |
| SharedBlock.ControlBlock.IncrementCounter | shared/shared.h:11-13 | the new state is Increment of the old |
| SharedBlock.ControlBlock.DecrementCounter | shared/shared.h:15-20 | the new state is Decrement of the old |
| SharedBlock.ControlBlock.DeleteSelf | shared/shared.h:51-53 | the new state is Delete of the old |
| SharedBlock.ControlBlock.GetCounter | shared/shared.h:22-24 | at least the number of owners; 0 iff the block is freed |
| SharedBlock.ControlBlock.GetPointer | shared/shared.h:38-40 | the embedded pointee, never null |
| SharedPointers.SharedPtr.constructor | shared/shared.h:69-71 | null access pointer and no block |
| SharedPointers.SharedPtr.FromOwning | shared/shared.h:73-73 | takes the initial unit of an owning block and points at its pointee |
| SharedPointers.SharedPtr.FromRaw | shared/shared.h:75-78 | a fresh adopting block for p, held by this handle alone |
| SharedPointers.SharedPtr.Copy | shared/shared.h:86-92 | same fields; the count rises by 1 iff there is a block |
| SharedPointers.SharedPtr.Move | shared/shared.h:94-98 | fields move over; the source is null; no count changes |
| SharedPointers.SharedPtr.Alias | shared/shared.h:118-123 | access pointer p; the shared block's count rises by 1 iff it exists |
| SharedPointers.SharedPtr.Destroy | shared/shared.h:155-159 | releases the unit, if any, as Decrement says |
| SharedPointers.SharedPtr.Swap | shared/shared.h:177-180 | both fields are exchanged and no count changes |
| SharedPointers.SharedPtr.ReplaceWith | shared/shared.h:137-150 | after swapping with a temporary and destroying it, this handle has the temporary's fields and the old unit is released |
| SharedPointers.SharedPtr.Assign | shared/shared.h:137-145 | shares the other's block; with different blocks the new one gains a unit and the old one loses one; self-assignment changes nothing |
| SharedPointers.SharedPtr.MoveAssign | shared/shared.h:147-150 | takes the other's fields and unit, nulls the source, releases the old unit; self-move changes nothing |
| SharedPointers.SharedPtr.Reset | shared/shared.h:164-166 | the old unit is released; the handle is null with UseCount 0 |
| SharedPointers.SharedPtr.ResetTo | shared/shared.h:168-170 | the old unit is released; p is adopted with UseCount 1 |
| SharedPointers.SharedPtr.Get | shared/shared.h:185-187 | the access pointer, whatever the block holds (an alias may point elsewhere) |
| SharedPointers.SharedPtr.ToBool | shared/shared.h:205-210 | true iff Get is not null, whatever the block holds: a null alias over a live block is false |
| SharedPointers.SharedPtr.UseCount | shared/shared.h:198-203 | 0 without a block, else the counter, at least the number of owners (at least 1) |
| SharedPointers.MakeShared | shared/shared.h:221-225 | a fresh owning block; Get is the embedded pointee and UseCount is 1 |
| SharedPointers.CopiesAndReset | shared/shared.h:164-166 | counts 1 and 2; after Reset the handle reports 0, the copy 1, and keeps its access pointer |
| SharedPointers.SelfAssignment | shared/shared.h:137-150 | self copy- and move-assignment keep UseCount 1; assigning a copy of the same block keeps 2 |
| SharedPointers.AliasKeepsBlock | shared/shared.h:118-123 | an alias shares the count 2 and keeps the block, and its access pointer, after the original goes; it tests true iff its given pointer is not null, live block or not |
| Intrusive.SimpleCounter.constructor | intrusive/intrusive.h:25-25 | the count starts at 0 |
| Intrusive.SimpleCounter.IncRef | intrusive/intrusive.h:9-12 | the count rises by 1 and the new count is returned |
| Intrusive.SimpleCounter.DecRef | intrusive/intrusive.h:13-18 | 0 stays 0 and 0 is returned; otherwise the count drops by 1 and the new count is returned |
| Intrusive.SimpleCounter.RefCount | intrusive/intrusive.h:20-22 | the current count, unchanged by reading it |
| Intrusive.RefCounted.constructor | intrusive/intrusive.h:56-57 | a new object has count 0 and is alive |
| Intrusive.RefCounted.IncRef | intrusive/intrusive.h:39-41 | the count rises by 1; the object is not destroyed |
| Intrusive.RefCounted.DecRef | intrusive/intrusive.h:45-49 | the counter's DecRef, then a destroy iff the counter is 0 afterwards (including a counter that was already 0) |
| Intrusive.RefCounted.RefCount | intrusive/intrusive.h:52-54 | the counter's count, at least the number of handles holding the object |
| Intrusive.IntrusivePtr.constructor | intrusive/intrusive.h:70-71 | a null handle |
| Intrusive.IntrusivePtr.FromRaw | intrusive/intrusive.h:72-76 | the count rises by 1 iff the pointer is not null |
| Intrusive.IntrusivePtr.Copy | intrusive/intrusive.h:91-96 | same pointer; the count rises by 1 iff it is not null |
| Intrusive.IntrusivePtr.Move | intrusive/intrusive.h:98-100 | the pointer moves over; the source is null; no count changes |
| Intrusive.IntrusivePtr.Assign | intrusive/intrusive.h:103-115 | with different pointers the old object loses a reference (destroyed if it was the last) and the new one gains one; with equal pointers nothing changes |
| Intrusive.IntrusivePtr.MoveAssign | intrusive/intrusive.h:132-142 | with different pointers the old object loses a reference, the pointer moves over and the source is null; with equal pointers nothing changes |
| Intrusive.IntrusivePtr.Destroy | intrusive/intrusive.h:145-149 | the count drops by 1 iff not null, destroying the object iff it was the last reference |
| Intrusive.IntrusivePtr.Swap | intrusive/intrusive.h:160-162 | the pointers are exchanged and no count changes |
| Intrusive.IntrusivePtr.ReplaceWith | intrusive/intrusive.h:152-158 | after swapping with a temporary and destroying it, this handle has the temporary's pointer and the old reference is released |
| Intrusive.IntrusivePtr.Reset | intrusive/intrusive.h:152-154 | the old reference is released; the handle is null with UseCount 0 |
| Intrusive.IntrusivePtr.ResetTo | intrusive/intrusive.h:156-158 | holds p afterwards; a different old object loses a reference and p gains one; the same object ends unchanged |
| Intrusive.IntrusivePtr.Get | intrusive/intrusive.h:165-167 | the held pointer; for a valid handle a non-null one is a live object with RefCount at least 1 |
| Intrusive.IntrusivePtr.ToBool | intrusive/intrusive.h:185-190 | true iff the held pointer is not null |
| Intrusive.IntrusivePtr.UseCount | intrusive/intrusive.h:178-183 | 0 for null, else RefCount, at least the number of holders (at least 1) |
| Intrusive.MakeIntrusive | intrusive/intrusive.h:196-199 | a fresh object held by a fresh handle with UseCount 1 |
| Intrusive.LifeCycle | intrusive/intrusive.h:103-149 | counts 1, 2, 2 (assigning the same pointer changes nothing), 1 after one handle goes, and the object is destroyed exactly once when the last goes |
| Intrusive.MoveBetweenObjects | intrusive/intrusive.h:132-142 | move assignment destroys the target's old object, keeps the moved object's count at 1, and nulls the source |
| Intrusive.UnheldDecRef | intrusive/intrusive.h:45-49 | a DecRef on an unheld object leaves the count at 0 and still destroys the object |
| Unique.Dispose | unique/unique.h:66-70 | giving up a handle's pointer calls its deleter once on it iff it is not null |
| Unique.Step | unique/unique.h:50-93 | Release hands the pointer back and Swap hands it to the other handle, neither calling a deleter, and only they pass a pointer on; Reset and move assignment install the new pointer and call the old deleter once iff the old pointer is not null |
| Unique.Run | unique/unique.h:50-93 | every deleter call of a run is on a non-null pointer; at most one call or passed-on pointer per operation |
| Unique.StepAccounts | unique/unique.h:50-93 | one operation loses no pointer and invents none |
| Unique.RunAccounts | unique/unique.h:50-93 | over any run, the pointers held or given equal those disposed of, passed on by Release or Swap and still held, with multiplicity |
| Unique.LifetimeAccounts | unique/unique.h:50-93 | including the destructor, every non-null pointer the handle owned and did not pass on by Release or Swap is disposed of exactly once |
| Unique.GivenOnceEndsOnce | unique/unique.h:50-93 | a pointer given once is either disposed of once or passed on, not both |
| Unique.UniquePtr.constructor | unique/unique.h:31-38 | owns p with deleter d |
| Unique.UniquePtr.Move | unique/unique.h:40-41 | takes the source's pointer and deleter; the source is null |
| Unique.UniquePtr.Release | unique/unique.h:75-77 | returns the pointer, leaves the handle null, calls no deleter |
| Unique.UniquePtr.Reset | unique/unique.h:79-84 | installs p and calls the deleter once on the old pointer iff it was not null |
| Unique.UniquePtr.AssignNull | unique/unique.h:58-61 | Reset with null |
| Unique.UniquePtr.MoveAssign | unique/unique.h:50-56 | self-move changes nothing; otherwise the old pointer goes to the old deleter, pointer and deleter are taken over, the source is null |
| Unique.UniquePtr.Destroy | unique/unique.h:66-70 | calls the deleter once iff the pointer is not null |
| Unique.UniquePtr.Swap | unique/unique.h:86-93 | pointer and deleter are exchanged; no deleter call; this is the step SwapOp with the other handle's fields |
| Unique.UniquePtr.Get | unique/unique.h:98-100 | the owned pointer |
| Unique.UniquePtr.GetDeleter | unique/unique.h:102-108 | the deleter stored beside the pointer |
| Unique.UniquePtr.ToBool | unique/unique.h:110-112 | true iff Get is not null |
| Unique.ResetThenRelease | unique/unique.h:75-84 | Reset disposes of the old pointer; the released pointer is never disposed of |
| Unique.MoveAssignBetween | unique/unique.h:50-56 | the target's pointer goes to the target's deleter, the moved pointer later to its own, the source is null |
| Unique.SwapThenDestroy | unique/unique.h:86-93 | after Swap each pointer is disposed of with the deleter it came with |
| Unique.SelfOperations | unique/unique.h:40-56 | self-move and self-swap keep the handle; the pointer is disposed of once |
| Unique.NullIsNotDisposed | unique/unique.h:58-70 | a null pointer is never handed to the deleter |

## Left out

- SharedPtr.UseCount, WeakPtr.UseCount, IntrusivePtr.UseCount and the GetCounter members and RefCounted.RefCount: each proves the count is at least the number of handles holding the block or object, not equal to it. Equality needs a global fact: a handle is listed only by the block it holds. A per-block ghost set cannot state that. The scenario methods state the exact counts.
- StrongWeakBlock.ControlBlock.IncStrongCounter requires a positive strong count. Every caller in the source holds a strong unit or has checked that the block is not expired; raising a count of 0 would resurrect a destroyed pointee.
- unique/compressed_pair.h is not part of this model. The pair is two plain fields.
- weak/sw_fwd.h is not part of this model. BadWeakPtr is a `Result` error, not an exception type.
- EnableSharedFromThis and `operator==`: they are declared without bodies in both shared pointer headers.
- The promoting constructor of shared/shared.h:127-132 is not modelled. It calls `other.expired()`, which no WeakPtr in that directory provides.
- Placement new, `aligned_storage` and alignment: the storage is an abstract address.
- Virtual dispatch: replaced by a `Kind` datatype.
- Real `new`/`delete`: replaced by ghost destroy counters and freed flags.
- The template converting constructors, assignments and Reset(U*): all handles are over one pointee type. The `IntrusivePtr<Y>` copy and move constructors behave like the plain ones.
- The `DefaultDelete` conversion constructors are not modelled; all handles are over one pointee type.
- The array specialisation of UniquePtr: its default deleter uses `delete[]`, where the primary one uses `delete`. In the model a deleter is only a value that is called.
- The `this != nullptr` test in RefCounted::DecRef has no counterpart: an object is never null.
- Thread safety: the counters are plain fields and nothing is concurrent.
- Dereference operators (`*`, `->`, `operator[]`) are not modelled. Only the handle's pointer value is modelled, and the pointee has no contents.
- Counts are unbounded. `size_t` wrap-around of the counters is not modelled.
- The pointee's value and constructor arguments (`MakeShared(args...)`, `MakeIntrusive(args...)`) are not modelled. The model keeps only the pointee's address and lifetime.
- What happens to a moved-from deleter is left to the deleter type. The model keeps its value.
- A pointee destructor that itself releases handles (re-entrant DecWeak/DecRef during OnZeroStrong or Destroy) is not modelled.
