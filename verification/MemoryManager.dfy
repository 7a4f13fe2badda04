/** The request memory manager: every block of a request is on one doubly linked list, and small
    freed blocks wait on that list, in caches by size, to be handed out again. */
module MemoryManagerModule {

  const UINT_RANGE: int := 0x1_0000_0000
  const INT_RANGE: int := 0x8000_0000
  const LEEWAY: int := 1048576

  /** The bytes of a list of blocks. */
  function Total(sizes: seq<int>): int {
    if sizes == [] then 0 else sizes[0] + Total(sizes[1..])
  }

  lemma {:induction false} TotalOfBoth(a: seq<int>, b: seq<int>)
    ensures Total(a + b) == Total(a) + Total(b)
  {
    if a == [] {
      assert a + b == b;
    } else {
      assert (a + b)[1..] == a[1..] + b;
      TotalOfBoth(a[1..], b);
    }
  }

  function Without<T>(s: seq<T>, k: nat): seq<T>
    requires k < |s|
  {
    s[..k] + s[k + 1..]
  }

  lemma {:induction false} TotalWithout(sizes: seq<int>, k: nat)
    requires k < |sizes|
    ensures Total(Without(sizes, k)) == Total(sizes) - sizes[k]
  {
    TotalOfBoth(sizes[..k], sizes[k + 1..]);
    TotalOfBoth(sizes[..k], sizes[k..]);
    assert sizes[..k] + sizes[k..] == sizes;
  }

  lemma {:induction false} WrapOnce(a: int, b: int)
    ensures (a % UINT_RANGE + b) % UINT_RANGE == (a + b) % UINT_RANGE
  {
  }

  lemma {:induction false} SameBase(before: int, after: int, growth: int)
    requires after == before + growth
    ensures (after - growth) % UINT_RANGE == before % UINT_RANGE
  {
  }

  class MemHeader {
    var pNext: MemHeader?
    var pLast: MemHeader?
    var size: int
    ghost var freed: bool

    /** What malloc returns: a block that is not freed, with arbitrary contents. */
    constructor ()
      ensures !freed
    {
      freed := false;
    }
  }

  ghost predicate Distinct<T>(s: seq<T>) {
    forall i, j :: 0 <= i < j < |s| ==> s[i] != s[j]
  }

  /** The block at a place of the list, or null beyond its ends. */
  function At(blocks: seq<MemHeader>, i: int): MemHeader? {
    if 0 <= i < |blocks| then blocks[i] else null
  }

  /** `head` starts a well-formed doubly linked list of exactly these blocks. */
  ghost predicate Linked(head: MemHeader?, blocks: seq<MemHeader>)
    reads blocks
  {
    && Distinct(blocks)
    && head == At(blocks, 0)
    && (forall i {:trigger blocks[i].pNext} :: 0 <= i < |blocks| ==> blocks[i].pNext == At(blocks, i + 1))
    && (forall i {:trigger blocks[i].pLast} :: 0 <= i < |blocks| ==> blocks[i].pLast == At(blocks, i - 1))
  }

  ghost predicate Sized(blocks: seq<MemHeader>, sizes: seq<int>)
    reads blocks
  {
    && |sizes| == |blocks|
    && forall i :: 0 <= i < |blocks| ==> blocks[i].size == sizes[i] && 0 <= sizes[i] < INT_RANGE && !blocks[i].freed
  }

  lemma {:induction false} SizedWithout(blocks: seq<MemHeader>, sizes: seq<int>, k: nat)
    requires Sized(blocks, sizes) && k < |blocks|
    ensures Sized(Without(blocks, k), Without(sizes, k))
  {
  }

  ghost function Place(blocks: seq<MemHeader>, p: MemHeader): (k: nat)
    requires p in blocks
    ensures k < |blocks| && blocks[k] == p
  {
    if blocks[0] == p then 0 else 1 + Place(blocks[1..], p)
  }

  lemma {:induction false} MultisetWithout<T>(s: seq<T>, k: nat)
    requires k < |s|
    ensures multiset(Without(s, k)) + multiset{s[k]} == multiset(s)
  {
    assert s == s[..k] + [s[k]] + s[k + 1..];
  }

  lemma {:induction false} StaysWithout<T>(s: seq<T>, k: nat)
    requires k < |s|
    ensures forall x :: x in s && x != s[k] ==> x in Without(s, k)
  {
    forall x | x in s && x != s[k] ensures x in Without(s, k) {
      var i :| 0 <= i < |s| && s[i] == x;
      assert x == Without(s, k)[if i < k then i else i - 1];
    }
  }

  lemma {:induction false} ExactlyWithout<T>(s: seq<T>, k: nat)
    requires k < |s| && Distinct(s)
    ensures forall x :: x in Without(s, k) <==> x in s && x != s[k]
  {
    StaysWithout(s, k);
  }

  /** What CHECK_MEMORY_LIMIT did: nothing, raised the error once, or ended the process. */
  datatype Verdict = Within | Complained | Exited

  class MemoryManager {
    const forcedSize: nat             // the size every emalloc really allocates
    const maxMemory: nat              // MAX_CACHED_MEMORY
    const maxEntries: nat             // MAX_CACHED_ENTRIES
    const memoryLimit: nat
    var head: MemHeader?
    var cache: array2<MemHeader?>
    var cacheCount: array<int>
    var allocatedMemory: int
    var memoryExhausted: bool

    ghost var blocks: seq<MemHeader>        // the list, from the head
    ghost var sizes: seq<int>               // the sizes of these blocks
    ghost var stacks: seq<seq<MemHeader>>   // the caches, by size

    /** The entries below `cacheCount[s]` are distinct blocks of size s on the list. */
    ghost predicate StackOk(s: int)
      requires 0 <= s < |stacks| && cacheCount.Length == cache.Length0 == |stacks|
      reads this, cache, cacheCount, blocks
    {
      var stack := stacks[s];
      && cacheCount[s] == |stack| <= cache.Length1
      && Distinct(stack)
      && (forall j :: 0 <= j < |stack| ==> cache[s, j] == stack[j])
      && (forall b :: b in stack ==> b in blocks && b.size == s)
    }

    /** The list is well formed, and the accounting agrees with it. */
    ghost predicate ListOk()
      reads this, blocks
    {
      && forcedSize < INT_RANGE
      && Linked(head, blocks) && Sized(blocks, sizes)
      && allocatedMemory == Total(sizes) % UINT_RANGE
    }

    ghost predicate CachesOk()
      reads this, cache, cacheCount, blocks
    {
      && cacheCount.Length == cache.Length0 == |stacks| == maxMemory && cache.Length1 == maxEntries
      && (forall s :: 0 <= s < maxMemory ==> StackOk(s))
    }

    ghost predicate Valid()
      reads this, cache, cacheCount, blocks
    {
      ListOk() && CachesOk()
    }

    ghost predicate Waiting(b: MemHeader)
      reads this, b
    {
      0 <= b.size < |stacks| && b in stacks[b.size]
    }

    ghost predicate HasRoom(size: int)
      reads this
    {
      0 <= size < |stacks| && |stacks[size]| < maxEntries
    }

    /** The blocks handed out: those on the list that do not wait in a cache. */
    ghost function Live(): set<MemHeader>
      reads this, blocks
    {
      set b | b in blocks && !Waiting(b)
    }

    /** start_memory_manager */
    constructor (forcedSize: nat, maxMemory: nat, maxEntries: nat, memoryLimit: nat)
      requires forcedSize < INT_RANGE
      ensures Valid() && fresh(cache) && fresh(cacheCount)
      ensures this.forcedSize == forcedSize && this.maxMemory == maxMemory && this.maxEntries == maxEntries
      ensures this.memoryLimit == memoryLimit
      ensures blocks == [] && allocatedMemory == 0 && !memoryExhausted
    {
      this.forcedSize, this.maxMemory, this.maxEntries, this.memoryLimit := forcedSize, maxMemory, maxEntries,
        memoryLimit;
      head := null;
      allocatedMemory, memoryExhausted := 0, false;
      cache := new MemHeader?[maxMemory, maxEntries];
      cacheCount := new int[maxMemory](_ => 0);
      blocks, sizes := [], [];
      stacks := seq(maxMemory, _ => []);
    }

    /** REMOVE_POINTER_FROM_LIST */
    method Unlink(p: MemHeader, ghost k: nat)
      requires Linked(head, blocks) && k < |blocks| && blocks[k] == p
      modifies this`head, blocks`pNext, blocks`pLast
      ensures Linked(head, Without(blocks, k))
    {
      if p == head {
        head := p.pNext;
      } else {
        p.pLast.pNext := p.pNext;
      }
      if p.pNext != null {
        p.pNext.pLast := p.pLast;
      }
    }

    method Remove(p: MemHeader, ghost k: nat)
      requires Linked(head, blocks) && Sized(blocks, sizes) && k < |blocks| && blocks[k] == p
      modifies this`head, this`blocks, this`sizes, blocks`pNext, blocks`pLast
      ensures blocks == Without(old(blocks), k) && sizes == Without(old(sizes), k)
      ensures Linked(head, blocks) && Sized(blocks, sizes)
      ensures Total(sizes) == Total(old(sizes)) - p.size
    {
      Unlink(p, k);
      assert Sized(blocks, sizes);
      TotalWithout(sizes, k);
      SizedWithout(blocks, sizes, k);
      blocks, sizes := Without(blocks, k), Without(sizes, k);
    }

    /** The block becomes the head of the list, with its size. */
    method Prepend(p: MemHeader, size: nat)
      requires Linked(head, blocks) && Sized(blocks, sizes) && p !in blocks && !p.freed && size < INT_RANGE
      modifies this`head, this`blocks, this`sizes, blocks, p
      ensures blocks == [p] + old(blocks) && sizes == [size as int] + old(sizes)
      ensures Linked(head, blocks) && Sized(blocks, sizes)
      ensures Total(sizes) == Total(old(sizes)) + size && p.size == size
      ensures forall b :: b in old(blocks) ==> b.size == old(b.size) && b.freed == old(b.freed)
    {
      p.pNext := head;
      if head != null { head.pLast := p; }
      p.pLast := null;
      head := p;
      p.size := size;
      blocks, sizes := [p] + blocks, [size as int] + sizes;
      assert sizes[1..] == old(sizes);
    }

    /** What the limit check has found for the bytes now allocated: the process exits beyond the leeway;
        below it an error is raised, once in a request and not during its shutdown. */
    predicate Limited(verdict: Verdict, wasExhausted: bool, shutdownRequested: bool)
      reads this`allocatedMemory, this`memoryExhausted
    {
      && (verdict == Exited <==> allocatedMemory > memoryLimit + 0x10_0000)
      && (verdict == Complained <==>
            memoryLimit < allocatedMemory <= memoryLimit + 0x10_0000 && !wasExhausted && !shutdownRequested)
      && memoryExhausted == (wasExhausted || verdict == Complained)
    }

    /** CHECK_MEMORY_LIMIT */
    method CheckMemoryLimit(s: int, shutdownRequested: bool) returns (verdict: Verdict)
      modifies this`allocatedMemory, this`memoryExhausted
      ensures allocatedMemory == (old(allocatedMemory) + s) % 0x1_0000_0000
      ensures Limited(verdict, old(memoryExhausted), shutdownRequested)
    {
      verdict := Within;
      allocatedMemory := (allocatedMemory + s) % UINT_RANGE;
      if memoryLimit < allocatedMemory {
        if allocatedMemory > memoryLimit + LEEWAY {
          verdict := Exited;
        } else if !memoryExhausted && !shutdownRequested {
          memoryExhausted := true;
          verdict := Complained;
        }
      }
    }

    method Free(p: MemHeader)
      requires !p.freed
      modifies p`freed
      ensures p.freed
    {
      p.freed := true;
    }

    /** Takes the block that was last put into a cache. */
    method Pop(size: nat) returns (p: MemHeader)
      requires Valid() && size < maxMemory && cacheCount[size] > 0
      modifies this`stacks, cacheCount
      ensures Valid() && p.size == size
      ensures |stacks| == |old(stacks)| && stacks[size] + [p] == old(stacks)[size]
      ensures forall s :: 0 <= s < |stacks| && s != size ==> stacks[s] == old(stacks)[s]
      ensures p !in old(Live()) && Live() == old(Live()) + {p}
    {
      ghost var stack := stacks[size];
      assert StackOk(size);
      cacheCount[size] := cacheCount[size] - 1;
      p := cache[size, cacheCount[size]];
      stacks := stacks[size := stack[..|stack| - 1]];
      forall s | 0 <= s < maxMemory ensures StackOk(s) {
        assert old(StackOk(s));
      }
    }

    /** Puts a block into the cache of its size. */
    method Push(p: MemHeader)
      requires Valid() && p in Live() && p.size < maxMemory && cacheCount[p.size] < maxEntries
      modifies this`stacks, cache, cacheCount
      ensures Valid() && Live() == old(Live()) - {p}
      ensures stacks == old(stacks)[p.size := old(stacks)[p.size] + [p]]
    {
      ghost var size := p.size;
      ghost var stack := stacks[size];
      assert StackOk(size);
      cache[p.size, cacheCount[p.size]] := p;
      cacheCount[p.size] := cacheCount[p.size] + 1;
      stacks := stacks[size := stack + [p]];
      forall s | 0 <= s < maxMemory ensures StackOk(s) {
        assert old(StackOk(s));
      }
    }

    /** The list is not affected by the accounting. */
    twostate lemma {:induction false} ListKept()
      requires forcedSize < INT_RANGE && old(Linked(head, blocks)) && old(Sized(blocks, sizes))
      requires unchanged(this`head, this`blocks, this`sizes) && unchanged(blocks)
      requires allocatedMemory == Total(sizes) % UINT_RANGE
      ensures ListOk()
    {
    }

    /** The caches are not affected by what happens to blocks outside them. */
    twostate lemma {:induction false} CachesKept()
      requires old(CachesOk())
      requires unchanged(this`stacks, this`cache, this`cacheCount) && unchanged(cache) && unchanged(cacheCount)
      requires forall s, b :: 0 <= s < maxMemory && b in stacks[s] ==> b in blocks && b.size == old(b.size)
      ensures CachesOk()
    {
      forall s | 0 <= s < maxMemory ensures StackOk(s) {
        assert old(StackOk(s));
      }
    }

    /** A block added to the list: the caches stay, and it is handed out. */
    twostate lemma {:induction false} Added(new p: MemHeader)
      requires old(CachesOk()) && p !in old(blocks) && blocks == [p] + old(blocks)
      requires unchanged(this`stacks, this`cache, this`cacheCount) && unchanged(cache) && unchanged(cacheCount)
      requires forall b :: b in old(blocks) ==> b.size == old(b.size)
      ensures CachesOk() && p !in old(Live()) && Live() == old(Live()) + {p}
    {
      forall s, b | 0 <= s < maxMemory && b in stacks[s] ensures b in blocks && b.size == old(b.size) {
        assert old(StackOk(s));
      }
      CachesKept();
      forall s | 0 <= s < maxMemory ensures p !in stacks[s] {
        assert old(StackOk(s));
      }
    }

    /** A block taken off the list that was handed out: the caches stay. */
    twostate lemma {:induction false} Dropped(new p: MemHeader, k: nat)
      requires old(CachesOk())
      requires old(Linked(head, blocks))
      requires p in old(Live())
      requires k < |old(blocks)| && old(blocks)[k] == p
      requires blocks == Without(old(blocks), k)
      requires unchanged(this`stacks, this`cache, this`cacheCount) && unchanged(cache) && unchanged(cacheCount)
      requires forall b :: b in old(blocks) ==> b.size == old(b.size)
      ensures CachesOk() && p !in blocks && Live() == old(Live()) - {p}
    {
      ExactlyWithout(old(blocks), k);
      forall s, b | 0 <= s < maxMemory && b in stacks[s] ensures b in blocks && b.size == old(b.size) {
        assert old(StackOk(s));
      }
      CachesKept();
    }

    /** The size of a block just linked, or the growth of one just relinked, is accounted for. */
    method Account(growth: int, shutdownRequested: bool) returns (verdict: Verdict)
      requires forcedSize < INT_RANGE && Linked(head, blocks) && Sized(blocks, sizes)
      requires allocatedMemory == (Total(sizes) - growth) % UINT_RANGE
      modifies this`allocatedMemory, this`memoryExhausted
      ensures ListOk()
      ensures Limited(verdict, old(memoryExhausted), shutdownRequested)
    {
      WrapOnce(Total(sizes) - growth, growth);
      verdict := CheckMemoryLimit(growth, shutdownRequested);
      ListKept();
    }

    method Link(p: MemHeader, size: nat, shutdownRequested: bool) returns (verdict: Verdict)
      requires ListOk() && p !in blocks && !p.freed && size < INT_RANGE
      modifies this`head, this`blocks, this`sizes, this`allocatedMemory, this`memoryExhausted, blocks, p
      ensures ListOk() && blocks == [p] + old(blocks) && p.size == size
      ensures Limited(verdict, old(memoryExhausted), shutdownRequested)
      ensures forall b :: b in old(blocks) ==> b.size == old(b.size) && b.freed == old(b.freed)
    {
      Prepend(p, size);
      assert Total(sizes) - size == Total(old(sizes));
      verdict := Account(size, shutdownRequested);
    }

    method Withdraw(p: MemHeader, ghost k: nat)
      requires ListOk() && k < |blocks| && blocks[k] == p
      modifies this`head, this`blocks, this`sizes, this`allocatedMemory, blocks
      ensures ListOk() && blocks == Without(old(blocks), k) && p !in blocks
      ensures forall b :: b in old(blocks) ==> b.size == old(b.size) && b.freed == old(b.freed)
    {
      Remove(p, k);
      label unlinked:
      WrapOnce(Total(old(sizes)), -p.size);
      allocatedMemory := (allocatedMemory - p.size) % UINT_RANGE;
      ListKept@unlinked();
    }

    /** The part of _emalloc that asks the system for a block. */
    method Grow(size: nat, shutdownRequested: bool) returns (p: MemHeader, verdict: Verdict)
      requires Valid() && size < INT_RANGE
      modifies this, blocks
      ensures Valid() && unchanged(this`stacks, this`cache, this`cacheCount)
      ensures fresh(p) && p.size == size && blocks == [p] + old(blocks)
      ensures forall b :: b in old(blocks) ==> b.size == old(b.size)
      ensures Limited(verdict, old(memoryExhausted), shutdownRequested)
      ensures p !in old(Live()) && Live() == old(Live()) + {p}
    {
      p := new MemHeader();
      verdict := Link(p, size, shutdownRequested);
      Added(p);
    }

    /** _emalloc: hands out a waiting block of the right size if there is one, else a new one.
        Whatever is asked for, the size is the forced one. */
    method Emalloc(requested: nat, shutdownRequested: bool) returns (p: MemHeader, verdict: Verdict)
      requires Valid()
      modifies this, cacheCount, blocks
      ensures Valid() && unchanged(this`cache, this`cacheCount)
      ensures p.size == forcedSize && p !in old(Live()) && Live() == old(Live()) + {p}
      ensures forall b :: b in old(blocks) ==> b.size == old(b.size)
      ensures if forcedSize < maxMemory && old(cacheCount[forcedSize]) > 0 then
                blocks == old(blocks) && stacks[forcedSize] + [p] == old(stacks)[forcedSize]
                && (forall s :: 0 <= s < maxMemory && s != forcedSize ==> stacks[s] == old(stacks)[s])
                && verdict == Within && unchanged(this`allocatedMemory, this`memoryExhausted)
              else
                fresh(p) && blocks == [p] + old(blocks) && stacks == old(stacks)
                && Limited(verdict, old(memoryExhausted), shutdownRequested)
    {
      var size := forcedSize;
      if size < maxMemory && cacheCount[size] > 0 {
        p := Pop(size);
        verdict := Within;
      } else {
        p, verdict := Grow(size, shutdownRequested);
      }
    }

    /** The part of _efree that returns a block to the system. */
    method Release(p: MemHeader, ghost k: nat)
      requires Valid() && p in Live() && k < |blocks| && blocks[k] == p
      modifies this, blocks
      ensures Valid() && unchanged(this`stacks, this`cache, this`cacheCount)
      ensures p.freed && p.size == old(p.size)
      ensures forall b :: b in old(blocks) ==> b.size == old(b.size)
      ensures blocks == Without(old(blocks), k) && Live() == old(Live()) - {p}
    {
      Withdraw(p, k);
      Free(p);
      Dropped(p, k);
    }

    /** _efree: the block waits in the cache of its size if there is room, else it is returned to
        the system. */
    method Efree(p: MemHeader) returns (ghost place: nat)
      requires Valid() && p in Live()
      modifies this, cache, cacheCount, blocks
      ensures Valid() && unchanged(this`cache, this`cacheCount)
      ensures Live() == old(Live()) - {p}
      ensures p.size == old(p.size) && place < |old(blocks)|
      ensures forall b :: b in old(blocks) ==> b.size == old(b.size)
      ensures old(HasRoom(p.size)) ==>
                blocks == old(blocks) && !p.freed && stacks == old(stacks)[p.size := old(stacks)[p.size] + [p]]
      ensures !old(HasRoom(p.size)) ==>
                p.freed && stacks == old(stacks) && old(blocks)[place] == p && blocks == Without(old(blocks), place)
    {
      place := Place(blocks, p);
      assert p.size < maxMemory ==> StackOk(p.size);
      if p.size < maxMemory && cacheCount[p.size] < maxEntries {
        Push(p);
      } else {
        Release(p, place);
      }
    }

    /** `p`, at place k of the list, was handed out and is replaced by `q`, which may be `p` itself. */
    twostate predicate Replaces(new p: MemHeader, new q: MemHeader, k: nat)
      reads this, cache, cacheCount, blocks
    {
      && old(CachesOk()) && old(Linked(head, blocks)) && p in old(Live()) && (q == p || q !in old(blocks))
      && k < |old(blocks)| && old(blocks)[k] == p && blocks == [q] + Without(old(blocks), k)
      && unchanged(this`stacks, this`cache, this`cacheCount) && unchanged(cache) && unchanged(cacheCount)
    }

    twostate lemma {:induction false} ReplacedInList(new p: MemHeader, new q: MemHeader, k: nat)
      requires Replaces(p, q, k)
      ensures forall b :: b in blocks <==> b == q || (b in old(blocks) && b != p)
      ensures forall s :: 0 <= s < maxMemory ==> p !in stacks[s] && q !in stacks[s]
    {
      ExactlyWithout(old(blocks), k);
      forall s | 0 <= s < maxMemory ensures p !in stacks[s] && q !in stacks[s] {
        assert old(StackOk(s));
      }
    }

    /** One block of the list replaced by another, or by itself with another size. */
    twostate lemma {:induction false} Replaced(new p: MemHeader, new q: MemHeader, k: nat)
      requires Replaces(p, q, k)
      requires forall b :: b in old(blocks) && b != p ==> b.size == old(b.size)
      ensures CachesOk() && Live() == old(Live()) - {p} + {q}
    {
      ReplacedInList(p, q, k);
      forall s, b | 0 <= s < maxMemory && b in stacks[s] ensures b in blocks && b.size == old(b.size) {
        assert old(StackOk(s));
      }
      CachesKept();
    }

    /** The system resizes a block, which may move it. */
    method Realloc(p: MemHeader, moves: bool) returns (q: MemHeader)
      requires !p.freed
      modifies p`freed
      ensures !q.freed && (if moves then fresh(q) && p.freed else q == p)
    {
      q := p;
      if moves {
        q := new MemHeader();
        Free(p);
      }
    }

    method Detach(p: MemHeader, moves: bool, ghost k: nat) returns (q: MemHeader)
      requires Linked(head, blocks) && Sized(blocks, sizes) && k < |blocks| && blocks[k] == p
      modifies this`head, this`blocks, this`sizes, blocks
      ensures Linked(head, blocks) && Sized(blocks, sizes) && q !in blocks && !q.freed
      ensures blocks == Without(old(blocks), k) && Total(sizes) == Total(old(sizes)) - old(p.size)
      ensures if moves then fresh(q) && p.freed else q == p
      ensures forall b :: b in old(blocks) && b != p ==> b.size == old(b.size) && b.freed == old(b.freed)
    {
      Remove(p, k);
      q := Realloc(p, moves);
    }

    /** Takes a block off the list, resizes it, and puts it at the head. */
    method Reinsert(p: MemHeader, size: nat, moves: bool, ghost k: nat) returns (q: MemHeader)
      requires Linked(head, blocks) && Sized(blocks, sizes) && k < |blocks| && blocks[k] == p && size < INT_RANGE
      modifies this`head, this`blocks, this`sizes, blocks
      ensures Linked(head, blocks) && Sized(blocks, sizes) && blocks == [q] + Without(old(blocks), k)
      ensures q.size == size && Total(sizes) == Total(old(sizes)) - old(p.size) + size
      ensures if moves then fresh(q) && p.freed else q == p
      ensures forall b :: b in old(blocks) && b != p ==> b.size == old(b.size) && b.freed == old(b.freed)
    {
      q := Detach(p, moves, k);
      assert fresh(q) || (q == p && p in old(blocks));
      Prepend(q, size);
    }

    /** Relinks a block of the list that is resized, at the head. */
    method Relink(p: MemHeader, size: nat, moves: bool, shutdownRequested: bool, ghost k: nat)
      returns (q: MemHeader, verdict: Verdict)
      requires ListOk() && k < |blocks| && blocks[k] == p && size < INT_RANGE
      modifies this`head, this`blocks, this`sizes, this`allocatedMemory, this`memoryExhausted, blocks
      ensures ListOk() && blocks == [q] + Without(old(blocks), k) && q.size == size
      ensures if moves then fresh(q) && p.freed else q == p
      ensures Limited(verdict, old(memoryExhausted), shutdownRequested)
      ensures forall b :: b in old(blocks) && b != p ==> b.size == old(b.size) && b.freed == old(b.freed)
    {
      var oldSize := p.size;
      q := Reinsert(p, size, moves, k);
      SameBase(Total(old(sizes)), Total(sizes), size - oldSize);
      verdict := Account(size - oldSize, shutdownRequested);
    }

    /** _erealloc: exactly one block of the list is replaced, even when it moves or is the head. */
    method Erealloc(p: MemHeader?, size: nat, moves: bool, shutdownRequested: bool)
      returns (q: MemHeader, verdict: Verdict, ghost place: nat)
      requires Valid() && (p != null ==> p in Live()) && size < INT_RANGE
      modifies this, cacheCount, blocks
      ensures Valid() && unchanged(this`cache, this`cacheCount)
      ensures p == null ==> q.size == forcedSize && q !in old(Live()) && Live() == old(Live()) + {q}
      ensures p != null ==> q.size == size && Live() == old(Live()) - {p} + {q} && stacks == old(stacks)
                            && place < |old(blocks)| && old(blocks)[place] == p
                            && blocks == [q] + Without(old(blocks), place)
      ensures p != null ==> if moves then fresh(q) && p.freed else q == p
      ensures forall b :: b in old(blocks) && b != p ==> b.size == old(b.size)
      ensures if p == null && forcedSize < maxMemory && old(cacheCount[forcedSize]) > 0
              then verdict == Within && unchanged(this`allocatedMemory, this`memoryExhausted)
              else Limited(verdict, old(memoryExhausted), shutdownRequested)
    {
      place := 0;
      if p == null {
        q, verdict := Emalloc(size, shutdownRequested);
      } else {
        place := Place(blocks, p);
        q, verdict := Relink(p, size, moves, shutdownRequested, place);
        Replaced(p, q, place);
      }
    }

    /** Frees a block that is still on the list, and records it. */
    method Discard(p: MemHeader, ghost k: nat, ghost log: seq<MemHeader>) returns (ghost longer: seq<MemHeader>)
      requires Linked(head, blocks) && Sized(blocks, sizes) && k < |blocks| && blocks[k] == p
      modifies this`head, this`blocks, this`sizes, blocks`pNext, blocks`pLast, blocks`freed
      ensures Linked(head, blocks) && Sized(blocks, sizes) && blocks == Without(old(blocks), k)
      ensures p.freed && longer == log + [p] && p !in blocks
      ensures multiset(longer) + multiset(blocks) == multiset(log) + multiset(old(blocks))
      ensures forall b :: b in old(blocks) ==> (b != p ==> b in blocks)
    {
      MultisetWithout(blocks, k);
      StaysWithout(blocks, k);
      Remove(p, k);
      Free(p);
      longer := log + [p];
    }

    /** Every block waiting at or after entry j of cache i is in the list, with its size. */
    ghost predicate WaitingIn(list: seq<MemHeader>, i: int, j: int)
      reads this`stacks, list
    {
      forall s, n :: 0 <= s < |stacks| && 0 <= n < |stacks[s]| && (s > i || (s == i && n >= j)) ==>
        stacks[s][n] in list && stacks[s][n].size == s
    }

    /** Every block before entry j of cache i has left the list, and no block of `live` has. */
    ghost predicate GoneFrom(list: seq<MemHeader>, i: int, j: int, live: set<MemHeader>)
      reads this`stacks
    {
      && (forall s, n :: 0 <= s < |stacks| && 0 <= n < |stacks[s]| && (s < i || (s == i && n < j)) ==>
            stacks[s][n] !in list)
      && (forall b :: b in live ==> b in list)
    }

    ghost predicate StillWaiting(i: int, j: int)
      reads this, blocks
    {
      WaitingIn(blocks, i, j)
    }

    ghost predicate Gone(i: int, j: int, live: set<MemHeader>)
      reads this
    {
      GoneFrom(blocks, i, j, live)
    }

    /** No block of `live` waits in a cache. */
    ghost predicate Apart(live: set<MemHeader>)
      reads this`stacks
    {
      forall s, n :: 0 <= s < |stacks| && 0 <= n < |stacks[s]| ==> stacks[s][n] !in live
    }

    /** Every other block waits in a cache. */
    ghost predicate Covered(live: set<MemHeader>, all: seq<MemHeader>)
      reads this`stacks
    {
      forall b :: b in all && b !in live ==> exists s,
        n :: 0 <= s < |stacks| && 0 <= n < |stacks[s]| && stacks[s][n] == b
    }

    lemma {:induction false} LeftAreLive(live: set<MemHeader>, all: seq<MemHeader>)
      requires Covered(live, all) && Gone(|stacks|, 0, live) && forall n :: 0 <= n < |blocks| ==> blocks[n] in all
      ensures forall b :: b in blocks <==> b in live
    {
    }

    /** The entries after entry j of cache i are different blocks from it, so they stay when it goes. */
    lemma {:induction false} EntryGone(i: int, j: int, was: seq<MemHeader>, live: set<MemHeader>)
      requires 0 <= i < |stacks| && 0 <= j < |stacks[i]| && (forall s :: 0 <= s < |stacks| ==> Distinct(stacks[s]))
      requires WaitingIn(was, i, j) && GoneFrom(was, i, j, live) && Apart(live) && stacks[i][j] !in blocks
      requires forall b :: b in blocks ==> b in was
      requires forall b :: b in was && b != stacks[i][j] ==> b in blocks
      ensures StillWaiting(i, j + 1) && Gone(i, j + 1, live)
    {
      forall s, n | 0 <= s < |stacks| && 0 <= n < |stacks[s]| && (s > i || (s == i && n >= j + 1))
        ensures stacks[s][n] in blocks && stacks[s][n].size == s
      {
        assert stacks[s][n] in was && stacks[i][j].size == i;
      }
    }

    /** The caches as they were when the shutdown began. */
    ghost predicate Filed()
      reads this`stacks, this`cache, this`cacheCount, cache, cacheCount
    {
      && cacheCount.Length == cache.Length0 == |stacks| == maxMemory && cache.Length1 == maxEntries
      && forall s :: 0 <= s < maxMemory ==>
           cacheCount[s] == |stacks[s]| <= maxEntries && Distinct(stacks[s])
           && forall j :: 0 <= j < |stacks[s]| ==> cache[s, j] == stacks[s][j]
    }

    /** The blocks freed so far and those on the list are the blocks there were. */
    ghost predicate Shared(log: seq<MemHeader>, all: seq<MemHeader>)
      reads this, blocks, log
    {
      && Linked(head, blocks) && Sized(blocks, sizes)
      && (forall n :: 0 <= n < |blocks| ==> blocks[n] in all)
      && multiset(log) + multiset(blocks) == multiset(all)
      && forall n :: 0 <= n < |log| ==> log[n].freed
    }

    lemma {:induction false} AllWaiting()
      requires CachesOk()
      ensures Filed() && StillWaiting(0, 0) && Apart(Live()) && Gone(0, 0, Live()) && Covered(Live(), blocks)
    {
      forall s | 0 <= s < maxMemory
        ensures cacheCount[s] == |stacks[s]| <= maxEntries && Distinct(stacks[s])
        ensures forall j :: 0 <= j < |stacks[s]| ==> cache[s, j] == stacks[s][j]
        ensures forall n :: 0 <= n < |stacks[s]| ==> stacks[s][n] in blocks && stacks[s][n].size == s
      {
        assert StackOk(s);
      }
    }

    method FreeEntry(i: nat, j: nat, ghost log: seq<MemHeader>, ghost all: seq<MemHeader>, ghost live: set<MemHeader>)
      returns (ghost longer: seq<MemHeader>)
      requires Filed() && i < maxMemory && j < cacheCount[i] && StillWaiting(i, j) && Shared(log, all)
      requires Apart(live) && Gone(i, j, live)
      modifies this`head, this`blocks, this`sizes, all`pNext, all`pLast, all`freed
      ensures StillWaiting(i, j + 1) && Shared(longer, all) && Gone(i, j + 1, live)
    {
      var p := cache[i, j];
      assert p == stacks[i][j];
      ghost var k := Place(blocks, p);
      ghost var was := blocks;
      assert forall n :: 0 <= n < |log| ==> log[n] !in was;
      longer := Discard(p, k, log);
      EntryGone(i, j, was, live);
    }

    method FreeCache(i: nat, ghost log: seq<MemHeader>, ghost all: seq<MemHeader>, ghost live: set<MemHeader>)
      returns (ghost longer: seq<MemHeader>)
      requires Filed() && i < maxMemory && StillWaiting(i, 0) && Shared(log, all)
      requires Apart(live) && Gone(i, 0, live)
      modifies this`head, this`blocks, this`sizes, all`pNext, all`pLast, all`freed
      ensures StillWaiting(i + 1, 0) && Shared(longer, all) && Gone(i + 1, 0, live)
    {
      longer := log;
      for j := 0 to cacheCount[i]
        invariant StillWaiting(i, j) && Shared(longer, all) && Gone(i, j, live)
      {
        longer := FreeEntry(i, j, longer, all, live);
      }
    }

    method FreeCaches(ghost all: seq<MemHeader>, ghost live: set<MemHeader>) returns (ghost log: seq<MemHeader>)
      requires Filed() && StillWaiting(0, 0) && Shared([], all) && Apart(live) && Gone(0, 0, live)
      modifies this`head, this`blocks, this`sizes, all`pNext, all`pLast, all`freed
      ensures Shared(log, all) && Gone(maxMemory, 0, live)
    {
      log := [];
      for i := 0 to maxMemory
        invariant StillWaiting(i, 0) && Shared(log, all) && Gone(i, 0, live)
      {
        log := FreeCache(i, log, all, live);
      }
    }

    /** The first pass of the shutdown frees the blocks waiting in the caches, and no others: those
        left are the blocks still handed out. */
    method FreeWaiting() returns (ghost log: seq<MemHeader>)
      requires Valid()
      modifies this`head, this`blocks, this`sizes, blocks`pNext, blocks`pLast, blocks`freed
      ensures Shared(log, old(blocks))
      ensures forall b :: b in blocks <==> b in old(Live())
    {
      ghost var all, live := blocks, Live();
      AllWaiting();
      log := FreeCaches(all, live);
      LeftAreLive(live, all);
    }

    /** The second pass: the blocks left on the list. */
    method FreeList() returns (ghost log: seq<MemHeader>)
      requires Linked(head, blocks) && forall n :: 0 <= n < |blocks| ==> !blocks[n].freed
      modifies blocks`freed
      ensures log == blocks
      ensures forall n :: 0 <= n < |blocks| ==> blocks[n].freed
    {
      ghost var i := 0;
      log := [];
      var t := head;
      while t != null
        invariant 0 <= i <= |blocks| && t == At(blocks, i) && log == blocks[..i]
        invariant Linked(head, blocks)
        invariant forall n :: i <= n < |blocks| ==> !blocks[n].freed
        invariant forall n :: 0 <= n < i ==> blocks[n].freed
        decreases |blocks| - i
      {
        var p := t.pNext;
        Free(t);
        log, i := log + [blocks[i]], i + 1;
        t := p;
      }
    }

    /** shutdown_memory_manager: frees every block of the list exactly once. */
    method Shutdown() returns (ghost log: seq<MemHeader>)
      requires Valid()
      modifies this, blocks`pNext, blocks`pLast, blocks`freed
      ensures multiset(log) == multiset(old(blocks))
      ensures forall b :: b in old(blocks) ==> b.freed
    {
      ghost var first := FreeWaiting();
      ghost var second := FreeList();
      log := first + second;
      forall b | b in old(blocks) ensures b.freed {
        assert b in multiset(first) + multiset(second);
      }
    }
  }
}
