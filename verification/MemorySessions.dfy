/** Whole requests: what the memory manager promises over every legal sequence of calls. */
module MemorySessions {
  import opened MemoryManagerModule

  /** What a script asks for; a block is named by its place among those the script holds. */
  datatype Request =
    | Allocate(size: nat)
    | Release(handle: nat)
    | Resize(handle: nat, newSize: nat, moves: bool)

  /** The script holds exactly the blocks handed out, none of them twice; the blocks obtained from
      the system, all different, are those given back and those on the list. */
  ghost predicate InSession(mm: MemoryManager, held: seq<MemHeader>, obtained: seq<MemHeader>, returned: seq<MemHeader>)
    reads mm, mm.cache, mm.cacheCount, mm.blocks
  {
    && mm.Valid()
    && Distinct(held) && mm.Live() == (set b | b in held)
    && Distinct(obtained) && multiset(returned) + multiset(mm.blocks) == multiset(obtained)
  }

  function SizesOf(held: seq<MemHeader>): (r: seq<int>)
    reads held
    ensures |r| == |held| && forall i :: 0 <= i < |held| ==> r[i] == held[i].size
  {
    seq(|held|, i requires 0 <= i < |held| reads held => held[i].size)
  }

  lemma {:induction false} SizesWithout(held: seq<MemHeader>, k: nat, sizes: seq<int>)
    requires k < |held| && |sizes| == |held| && forall i :: 0 <= i < |held| && i != k ==> held[i].size == sizes[i]
    ensures SizesOf(Without(held, k)) == Without(sizes, k)
  {
  }

  lemma {:induction false} SizesMore(held: seq<MemHeader>, q: MemHeader)
    ensures SizesOf(held + [q]) == SizesOf(held) + [q.size]
  {
  }

  /** The blocks held are on the list. */
  lemma {:induction false} HeldOnList(mm: MemoryManager, held: seq<MemHeader>)
    requires mm.Live() == (set b | b in held)
    ensures forall i :: 0 <= i < |held| ==> held[i] in mm.blocks
  {
    forall i | 0 <= i < |held| ensures held[i] in mm.blocks {
      assert held[i] in (set b | b in held);
      assert held[i] in mm.Live();
    }
  }

  lemma {:induction false} DistinctWithout<T>(s: seq<T>, k: nat)
    requires k < |s| && Distinct(s)
    ensures Distinct(Without(s, k))
  {
  }

  method Grant(mm: MemoryManager, size: nat, held: seq<MemHeader>, ghost obtained: seq<MemHeader>,
        ghost returned: seq<MemHeader>)
    returns (p: MemHeader, held': seq<MemHeader>, ghost obtained': seq<MemHeader>)
    requires InSession(mm, held, obtained, returned)
    modifies mm, mm.cacheCount, mm.blocks
    ensures InSession(mm, held', obtained', returned)
    ensures held' == held + [p] && p !in held && p.size == mm.forcedSize
    ensures SizesOf(held') == old(SizesOf(held)) + [mm.forcedSize as int]
    ensures obtained' == if mm.blocks == old(mm.blocks) then obtained else [p] + obtained
    ensures mm.cache == old(mm.cache) && mm.cacheCount == old(mm.cacheCount)
    ensures forall i :: 0 <= i < |mm.blocks| ==> mm.blocks[i] in old(mm.blocks) || fresh(mm.blocks[i])
  {
    HeldOnList(mm, held);
    var verdict;
    p, verdict := mm.Emalloc(size, false);
    held' := held + [p];
    obtained' := obtained;
    if mm.blocks != old(mm.blocks) { obtained' := [p] + obtained; }
  }

  method Take(mm: MemoryManager, k: nat, held: seq<MemHeader>, ghost obtained: seq<MemHeader>,
        ghost returned: seq<MemHeader>)
    returns (held': seq<MemHeader>, ghost returned': seq<MemHeader>)
    requires InSession(mm, held, obtained, returned) && k < |held|
    modifies mm, mm.cache, mm.cacheCount, mm.blocks
    ensures InSession(mm, held', obtained, returned') && held' == Without(held, k)
    ensures SizesOf(held') == Without(old(SizesOf(held)), k)
    ensures returned' == if mm.blocks == old(mm.blocks) then returned else returned + [held[k]]
    ensures mm.cache == old(mm.cache) && mm.cacheCount == old(mm.cacheCount)
    ensures forall i :: 0 <= i < |mm.blocks| ==> mm.blocks[i] in old(mm.blocks)
  {
    HeldOnList(mm, held);
    ghost var sizes, roomy := SizesOf(held), mm.HasRoom(held[k].size);
    ghost var place := mm.Efree(held[k]);
    held' := Without(held, k);
    SizesWithout(held, k, sizes);
    DistinctWithout(held, k);
    ExactlyWithout(held, k);
    returned' := returned;
    if !roomy {
      returned' := returned + [held[k]];
      MultisetWithout(old(mm.blocks), place);
    }
  }

  /** The balance when one block takes the place of another. */
  lemma {:induction false} ReplacedOnce<T>(s: seq<T>, k: nat, x: T, obtained: seq<T>, returned: seq<T>)
    requires k < |s| && multiset(returned) + multiset(s) == multiset(obtained)
    ensures multiset(returned) + multiset([s[k]] + Without(s, k)) == multiset(obtained)
    ensures multiset(returned + [s[k]]) + multiset([x] + Without(s, k)) == multiset([x] + obtained)
  {
    MultisetWithout(s, k);
  }

  lemma {:induction false} HeldInstead(held: seq<MemHeader>, k: nat, q: MemHeader)
    requires k < |held| && Distinct(held) && (q == held[k] || q !in held)
    ensures Distinct(Without(held, k) + [q])
    ensures (set b | b in Without(held, k) + [q]) == (set b | b in held) - {held[k]} + {q}
  {
    DistinctWithout(held, k);
    ExactlyWithout(held, k);
  }

  method Exchange(mm: MemoryManager, k: nat, size: nat, moves: bool, held: seq<MemHeader>,
        ghost obtained: seq<MemHeader>, ghost returned: seq<MemHeader>)
    returns (q: MemHeader, held': seq<MemHeader>, ghost obtained': seq<MemHeader>, ghost returned': seq<MemHeader>)
    requires InSession(mm, held, obtained, returned) && k < |held| && size < INT_RANGE
    modifies mm, mm.cacheCount, mm.blocks
    ensures InSession(mm, held', obtained', returned') && held' == Without(held, k) + [q] && q.size == size
    ensures SizesOf(held') == Without(old(SizesOf(held)), k) + [size as int]
    ensures if moves then q !in held && obtained' == [q] + obtained && returned' == returned + [held[k]]
            else q == held[k] && obtained' == obtained && returned' == returned
    ensures mm.cache == old(mm.cache) && mm.cacheCount == old(mm.cacheCount)
    ensures forall i :: 0 <= i < |mm.blocks| ==> mm.blocks[i] in old(mm.blocks) || fresh(mm.blocks[i])
  {
    HeldOnList(mm, held);
    ghost var sizes := SizesOf(held);
    var verdict;
    ghost var place;
    q, verdict, place := mm.Erealloc(held[k], size, moves, false);
    held' := Without(held, k) + [q];
    SizesWithout(held, k, sizes);
    SizesMore(Without(held, k), q);
    HeldInstead(held, k, q);
    ReplacedOnce(old(mm.blocks), place, q, obtained, returned);
    obtained', returned' := obtained, returned;
    if moves { obtained', returned' := [q] + obtained, returned + [held[k]]; }
  }

  /** `after` is `rest` and one more block, which is none of `before`. */
  predicate Adds(rest: seq<MemHeader>, before: seq<MemHeader>, after: seq<MemHeader>) {
    |after| == |rest| + 1 && after == rest + [after[|rest|]] && after[|rest|] !in before
  }

  /** How a request changes the blocks the script holds: an allocation adds one it does not hold, a
      release takes one away, a resize puts the same block or one it does not hold in its place.  A
      request that names no block it holds has no effect. */
  predicate Served(before: seq<MemHeader>, request: Request, after: seq<MemHeader>) {
    match request
    case Allocate(_) => Adds(before, before, after)
    case Release(k) => after == if k < |before| then Without(before, k) else before
    case Resize(k, _, moves) =>
      if k >= |before| then after == before
      else if moves then Adds(Without(before, k), before, after)
      else after == Without(before, k) + [before[k]]
  }

  /** The sizes of the blocks held after a request: an allocation gives the forced size whatever it
      asks for, a resize gives the size it asks for, and no other block changes its size. */
  function Resized(sizes: seq<int>, request: Request, forcedSize: nat): seq<int> {
    match request
    case Allocate(_) => sizes + [forcedSize as int]
    case Release(k) => if k < |sizes| then sizes[..k] + sizes[k + 1..] else sizes
    case Resize(k, newSize, _) => if k < |sizes| then sizes[..k] + sizes[k + 1..] + [newSize as int] else sizes
  }

  function SizesAfter(requests: seq<Request>, forcedSize: nat): seq<int> {
    if requests == [] then []
    else Resized(SizesAfter(requests[..|requests| - 1], forcedSize), requests[|requests| - 1], forcedSize)
  }

  /** What the script held before and after each of the first `n` requests. */
  ghost predicate Records(history: seq<seq<MemHeader>>, requests: seq<Request>, n: nat) {
    && n <= |requests| && |history| == n + 1 && history[0] == []
    && (forall i :: 0 <= i < n ==> Served(history[i], requests[i], history[i + 1]))
    && (forall i :: 0 <= i <= n ==> Distinct(history[i]))
  }

  lemma {:induction false} RecordsNext(history: seq<seq<MemHeader>>, requests: seq<Request>, n: nat,
        held: seq<MemHeader>)
    requires Records(history, requests, n) && n < |requests|
    requires Served(history[n], requests[n], held) && Distinct(held)
    ensures Records(history + [held], requests, n + 1)
  {
  }

  method Serve(mm: MemoryManager, request: Request, held: seq<MemHeader>, ghost obtained: seq<MemHeader>,
        ghost returned: seq<MemHeader>)
    returns (held': seq<MemHeader>, ghost obtained': seq<MemHeader>, ghost returned': seq<MemHeader>)
    requires InSession(mm, held, obtained, returned) && (request.Resize? ==> request.newSize < INT_RANGE)
    modifies mm, mm.cache, mm.cacheCount, mm.blocks
    ensures InSession(mm, held', obtained', returned') && Served(held, request, held')
    ensures SizesOf(held') == Resized(old(SizesOf(held)), request, mm.forcedSize)
    ensures mm.cache == old(mm.cache) && mm.cacheCount == old(mm.cacheCount)
    ensures forall i :: 0 <= i < |mm.blocks| ==> mm.blocks[i] in old(mm.blocks) || fresh(mm.blocks[i])
  {
    held', obtained', returned' := held, obtained, returned;
    match request
    case Allocate(size) =>
      var p;
      p, held', obtained' := Grant(mm, size, held, obtained, returned);
    case Release(k) =>
      if k < |held| { held', returned' := Take(mm, k, held, obtained, returned); }
    case Resize(k, size, moves) =>
      if k < |held| {
        var q;
        q, held', obtained', returned' := Exchange(mm, k, size, moves, held, obtained, returned);
      }
  }

  /** Any number of calls from the start of a request: after each the script holds what the calls so
      far have handed out, no block twice, and in the end in the sizes they have asked for. */
  method ServeAll(mm: MemoryManager, requests: seq<Request>)
    returns (held: seq<MemHeader>, ghost history: seq<seq<MemHeader>>, ghost obtained: seq<MemHeader>,
             ghost returned: seq<MemHeader>)
    requires InSession(mm, [], [], [])
    requires forall r <- requests :: r.Resize? ==> r.newSize < INT_RANGE
    modifies mm, mm.cache, mm.cacheCount, mm.blocks
    ensures InSession(mm, held, obtained, returned)
    ensures Records(history, requests, |requests|) && history[|requests|] == held
    ensures SizesOf(held) == SizesAfter(requests, mm.forcedSize)
    ensures forall i :: 0 <= i < |mm.blocks| ==> mm.blocks[i] in old(mm.blocks) || fresh(mm.blocks[i])
  {
    held, history, obtained, returned := [], [[]], [], [];
    assert SizesOf(held) == [];
    for n := 0 to |requests|
      invariant mm.cache == old(mm.cache) && mm.cacheCount == old(mm.cacheCount)
      invariant forall i :: 0 <= i < |mm.blocks| ==> mm.blocks[i] in old(mm.blocks) || fresh(mm.blocks[i])
      invariant InSession(mm, held, obtained, returned)
      invariant Records(history, requests, n) && history[n] == held
      invariant SizesOf(held) == SizesAfter(requests[..n], mm.forcedSize)
    {
      held, obtained, returned := Serve(mm, requests[n], held, obtained, returned);
      assert requests[..n + 1][..n] == requests[..n];
      RecordsNext(history, requests, n, held);
      history := history + [held];
    }
    assert requests[..|requests|] == requests;
  }

  /** A request from start to shutdown.  After each call the script holds what the calls so far have
      handed out, no block twice, and at the end in the sizes they have asked for; throughout, the blocks
      held and those waiting in the caches share the list out between them and the accounting is right;
      the shutdown leaves every block obtained from the system given back exactly once. */
  method Session(forcedSize: nat, maxMemory: nat, maxEntries: nat, memoryLimit: nat, requests: seq<Request>)
    returns (held: seq<MemHeader>, ghost history: seq<seq<MemHeader>>,
             ghost obtained: seq<MemHeader>, ghost returned: seq<MemHeader>)
    requires forcedSize < INT_RANGE
    requires forall r <- requests :: r.Resize? ==> r.newSize < INT_RANGE
    ensures Records(history, requests, |requests|) && history[|requests|] == held
    ensures SizesOf(held) == SizesAfter(requests, forcedSize)
    ensures forall b <- held :: b in obtained
    ensures Distinct(obtained) && multiset(returned) == multiset(obtained)
  {
    var mm := new MemoryManager(forcedSize, maxMemory, maxEntries, memoryLimit);
    assert mm.Live() == {};
    held, history, obtained, returned := ServeAll(mm, requests);
    forall b | b in held ensures b in obtained {
      assert b in mm.Live();
      assert b in multiset(returned) + multiset(mm.blocks);
    }
    ghost var sizes := SizesOf(held);
    ghost var log := mm.Shutdown();
    returned := returned + log;
    assert SizesOf(held) == sizes;
  }
}
