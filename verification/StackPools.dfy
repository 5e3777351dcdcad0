/**
 The magazine's lists as the runtime stores them: singly linked through the first two words of the
 free stacks themselves. A stack that is unmapped has no words left to read, so every access below
 also shows that no list is followed through an unmapped stack.
 */
module StackPools {
  import opened Options
  import opened Magazine

  /** The pool header at the bottom of a free stack; address 0 ends a list. */
  datatype Header = Header(next: nat, size: nat)

  /** The header words of every mapped stack. */
  type Memory = map<nat, Header>

  function Addr(s: seq<Stk>, i: nat): nat { if i < |s| then s[i].addr else 0 }

  function Addrs(s: seq<Stk>): set<nat> { set x | x in s :: x.addr }

  ghost predicate Linked(mem: Memory, s: seq<Stk>, i: nat)
    requires i < |s|
  {
    s[i].addr != 0 && s[i].addr in mem && mem[s[i].addr] == Header(Addr(s, i + 1), s[i].size)
  }

  ghost predicate Chain(mem: Memory, head: nat, s: seq<Stk>) {
    && head == Addr(s, 0) && (s != [] ==> Linked(mem, s, 0))
    && (forall i :: 0 <= i < |s| ==> Linked(mem, s, i))
    && (forall i, j :: 0 <= i < j < |s| ==> s[i].addr != s[j].addr)
  }

  ghost predicate Away(addr: nat, s: seq<Stk>) { forall i :: 0 <= i < |s| ==> s[i].addr != addr }

  /** Two lists that share no stack. */
  ghost predicate Two(mem: Memory, ha: nat, a: seq<Stk>, hb: nat, b: seq<Stk>) {
    && Chain(mem, ha, a) && Chain(mem, hb, b)
    && (forall i, j :: 0 <= i < |a| && 0 <= j < |b| ==> a[i].addr != b[j].addr)
  }

  // ---- one list ----------------------------------------------------------------------------------

  lemma Pop(mem: Memory, head: nat, s: seq<Stk>)
    requires Chain(mem, head, s) && head != 0
    ensures s != [] && head in mem && s[0] == Stk(head, mem[head].size)
    ensures Chain(mem, mem[head].next, s[1..]) && Away(head, s[1..])
  {
    assert Linked(mem, s, 0);
    var rest := s[1..];
    forall i | 0 <= i < |rest| ensures Linked(mem, rest, i) { assert Linked(mem, s, i + 1); }
  }

  lemma Push(mem: Memory, head: nat, s: seq<Stk>, x: Stk)
    requires Chain(mem, head, s) && x.addr != 0 && Away(x.addr, s)
    ensures Chain(mem[x.addr := Header(head, x.size)], x.addr, [x] + s)
  {
    var mem', t := mem[x.addr := Header(head, x.size)], [x] + s;
    forall i | 0 <= i < |t| ensures Linked(mem', t, i) {
      if i > 0 { assert Linked(mem, s, i - 1); }
    }
  }

  /** A list survives whatever happens at an address that is not on it. */
  lemma Frame(mem: Memory, mem': Memory, head: nat, s: seq<Stk>, addr: nat)
    requires Chain(mem, head, s) && Away(addr, s)
    requires forall a | a in mem && a != addr :: a in mem' && mem'[a] == mem[a]
    ensures Chain(mem', head, s)
  {
    forall i | 0 <= i < |s| ensures Linked(mem', s, i) { assert Linked(mem, s, i); }
  }

  lemma CutFront(mem: Memory, head: nat, s: seq<Stk>, k: nat)
    requires Chain(mem, head, s) && 0 < k <= |s|
    ensures s[k - 1].addr in mem
    ensures var last := s[k - 1].addr; Chain(mem[last := Header(0, mem[last].size)], head, s[..k])
  {
    assert Linked(mem, s, k - 1);
    var last := s[k - 1].addr;
    var mem', t := mem[last := Header(0, mem[last].size)], s[..k];
    forall i | 0 <= i < |t| ensures Linked(mem', t, i) { assert Linked(mem, s, i); }
  }

  lemma CutBack(mem: Memory, head: nat, s: seq<Stk>, k: nat)
    requires Chain(mem, head, s) && 0 < k <= |s|
    ensures s[k - 1].addr in mem
    ensures Chain(mem, mem[s[k - 1].addr].next, s[k..]) && Away(s[k - 1].addr, s[k..])
  {
    assert Linked(mem, s, k - 1);
    var t := s[k..];
    forall i | 0 <= i < |t| ensures Linked(mem, t, i) { assert Linked(mem, s, k + i); }
  }

  // ---- two lists ---------------------------------------------------------------------------------

  /** Unmapping the head of one list leaves both. */
  lemma DropFirst(mem: Memory, ha: nat, a: seq<Stk>, hb: nat, b: seq<Stk>)
    requires Two(mem, ha, a, hb, b) && ha != 0
    ensures a != [] && ha in mem && a[0] == Stk(ha, mem[ha].size)
    ensures Two(mem - {ha}, mem[ha].next, a[1..], hb, b)
  {
    Pop(mem, ha, a);
    Frame(mem, mem - {ha}, mem[ha].next, a[1..], ha);
    Frame(mem, mem - {ha}, hb, b, ha);
  }

  /** Moving the head of one list to the front of the other. */
  lemma MoveFirst(mem: Memory, ha: nat, a: seq<Stk>, hb: nat, b: seq<Stk>)
    requires Two(mem, ha, a, hb, b) && ha != 0
    ensures a != [] && ha in mem && a[0] == Stk(ha, mem[ha].size)
    ensures Two(mem[ha := Header(hb, mem[ha].size)], mem[ha].next, a[1..], ha, [a[0]] + b)
  {
    Pop(mem, ha, a);
    var mem' := mem[ha := Header(hb, mem[ha].size)];
    Frame(mem, mem', mem[ha].next, a[1..], ha);
    Push(mem, hb, b, a[0]);
  }

  lemma Bystander(mem: Memory, mem': Memory, ha: nat, a: seq<Stk>, hb: nat, b: seq<Stk>, addr: nat)
    requires Two(mem, ha, a, hb, b) && Away(addr, a) && Away(addr, b)
    requires forall x | x in mem && x != addr :: x in mem' && mem'[x] == mem[x]
    ensures Two(mem', ha, a, hb, b)
  {
    Frame(mem, mem', ha, a, addr);
    Frame(mem, mem', hb, b, addr);
  }

  lemma Snoc(s: seq<Stk>, x: Stk)
    ensures Addrs(s + [x]) == Addrs(s) + {x.addr}
  {
    assert x in s + [x];
    forall a | a in Addrs(s) + {x.addr} ensures a in Addrs(s + [x]) {
      if a in Addrs(s) {
        var y :| y in s && y.addr == a;
        assert y in s + [x];
      }
    }
  }

  /** A refill that began at `cache0`, `depot0` has come to `cache`, `depot` with `room` to go. */
  ghost predicate RefillUnderway(cache0: seq<Stk>, depot0: seq<Stk>, size: nat,
                                 cache: seq<Stk>, depot: seq<Stk>, room: nat, gone: seq<Stk>)
  {
    var (c, d, more) := Refill(cache, depot, size, room);
    Refill(cache0, depot0, size, REFILL_BATCH) == (c, d, gone + more)
  }

  lemma RefillStarts(cache: seq<Stk>, depot: seq<Stk>, size: nat)
    ensures RefillUnderway(cache, depot, size, cache, depot, REFILL_BATCH, [])
  {
    var (c, d, more) := Refill(cache, depot, size, REFILL_BATCH);
    assert [] + more == more;
  }

  lemma RefillGoesOn(cache0: seq<Stk>, depot0: seq<Stk>, size: nat,
                     cache: seq<Stk>, depot: seq<Stk>, room: nat, gone: seq<Stk>)
    requires RefillUnderway(cache0, depot0, size, cache, depot, room, gone) && room > 0 && depot != []
    ensures depot[0].size != size ==> RefillUnderway(cache0, depot0, size, cache, depot[1..], room, gone + [depot[0]])
    ensures depot[0].size == size ==>
              RefillUnderway(cache0, depot0, size, [depot[0]] + cache, depot[1..], room - 1, gone)
  {
    if depot[0].size != size {
      var (c, d, more) := Refill(cache, depot[1..], size, room);
      assert Refill(cache, depot, size, room) == (c, d, [depot[0]] + more);
      assert gone + ([depot[0]] + more) == gone + [depot[0]] + more;
    }
  }

  lemma RefillEnds(cache0: seq<Stk>, depot0: seq<Stk>, size: nat,
                   cache: seq<Stk>, depot: seq<Stk>, room: nat, gone: seq<Stk>)
    requires RefillUnderway(cache0, depot0, size, cache, depot, room, gone) && (room == 0 || depot == [])
    ensures Refill(cache0, depot0, size, REFILL_BATCH) == (cache, depot, gone)
  {
    assert gone + [] == gone;
  }

  ghost predicate FlushUnderway(depot0: seq<Stk>, moved0: seq<Stk>, cap: nat,
                                depot: seq<Stk>, moved: seq<Stk>, gone: seq<Stk>)
  {
    var (d, more) := Flush(depot, moved, cap);
    Flush(depot0, moved0, cap) == (d, gone + more)
  }

  lemma FlushStarts(depot: seq<Stk>, moved: seq<Stk>, cap: nat)
    ensures FlushUnderway(depot, moved, cap, depot, moved, [])
  {
    var (d, more) := Flush(depot, moved, cap);
    assert [] + more == more;
  }

  lemma FlushGoesOn(depot0: seq<Stk>, moved0: seq<Stk>, cap: nat, depot: seq<Stk>, moved: seq<Stk>, gone: seq<Stk>)
    requires FlushUnderway(depot0, moved0, cap, depot, moved, gone) && moved != []
    ensures |depot| < cap ==> FlushUnderway(depot0, moved0, cap, [moved[0]] + depot, moved[1..], gone)
    ensures |depot| >= cap ==> FlushUnderway(depot0, moved0, cap, depot, moved[1..], gone + [moved[0]])
  {
    if |depot| >= cap {
      var (d, more) := Flush(depot, moved[1..], cap);
      assert Flush(depot, moved, cap) == (d, [moved[0]] + more);
      assert gone + ([moved[0]] + more) == gone + [moved[0]] + more;
    }
  }

  /** The search for a match has unmapped `gone` and come to `rest`. */
  ghost predicate Searched(whole: seq<Stk>, size: nat, gone: seq<Stk>, rest: seq<Stk>) {
    whole == gone + rest && Mismatched(whole, size) == |gone| + Mismatched(rest, size)
  }

  lemma SearchGoesOn(whole: seq<Stk>, size: nat, gone: seq<Stk>, rest: seq<Stk>)
    requires Searched(whole, size, gone, rest) && rest != [] && rest[0].size != size
    ensures Searched(whole, size, gone + [rest[0]], rest[1..])
  {
    assert gone + rest == (gone + [rest[0]]) + rest[1..];
  }

  lemma SearchEnds(whole: seq<Stk>, size: nat, gone: seq<Stk>, rest: seq<Stk>)
    requires Searched(whole, size, gone, rest)
    ensures rest == [] ==> Magazine.PopLocal(whole, size) == (None, [], gone)
    ensures rest != [] && rest[0].size == size ==> Magazine.PopLocal(whole, size) == (Some(rest[0]), rest[1..], gone)
  {
    if rest == [] {
      assert whole == gone;
    } else if rest[0].size == size {
      assert whole[|gone|] == rest[0] && whole[|gone| + 1..] == rest[1..] && whole[..|gone|] == gone;
    }
  }

  /** A stack that is popped was on the cache with the size asked for; if none was, the cache is empty. */
  lemma Given(cache: seq<Stk>, size: nat)
    ensures var (got, rest, gone) := Magazine.PopLocal(cache, size);
            (got.Some? ==> got.value in cache && got.value.size == size) && (got.None? ==> rest == [])
  {
  }

  lemma FilledFrom(depot: seq<Stk>, size: nat)
    ensures forall x :: x in Refill([], depot, size, REFILL_BATCH).0 ==> x in depot
  {
    RefillConserves([], depot, size, REFILL_BATCH);
    forall x | x in Refill([], depot, size, REFILL_BATCH).0 ensures x in depot {
      var (c, d, gone) := Refill([], depot, size, REFILL_BATCH);
      assert x in multiset(c) + multiset(d) + multiset(gone);
      assert x in multiset(depot);
    }
  }

  /** An address that is not mapped is on no list. */
  lemma Unlisted(mem: Memory, head: nat, s: seq<Stk>, addr: nat)
    requires Chain(mem, head, s) && addr !in mem
    ensures Away(addr, s)
  {
    forall i | 0 <= i < |s| ensures s[i].addr != addr { assert Linked(mem, s, i); }
  }

  class Pools {
    var mem: Memory
    var cacheHead: nat
    var cacheCount: int
    var depotHead: nat
    var depotCount: int
    ghost var cache: seq<Stk>
    ghost var depot: seq<Stk>

    ghost predicate Valid()
      reads this
    {
      && Two(mem, cacheHead, cache, depotHead, depot)
      && cacheCount == |cache| && depotCount == |depot|
    }

    constructor ()
      ensures Valid() && cache == [] && depot == []
    {
      mem, cacheHead, cacheCount, depotHead, depotCount := map[], 0, 0, 0, 0;
      cache, depot := [], [];
    }

    /** The head of the cache is unmapped for as long as it has another size. */
    method DropMismatched(size: nat) returns (ghost gone: seq<Stk>)
      requires Valid()
      modifies this
      ensures Valid() && depot == old(depot) && Searched(old(cache), size, gone, cache)
      ensures cache == [] || cache[0].size == size
      ensures mem.Keys == old(mem.Keys) - Addrs(gone)
    {
      gone := [];
      while cacheHead != 0 && mem[cacheHead].size != size
        invariant Valid() && depot == old(depot) && Searched(old(cache), size, gone, cache)
        invariant mem.Keys == old(mem.Keys) - Addrs(gone)
        decreases |cache|
      {
        DropFirst(mem, cacheHead, cache, depotHead, depot);
        var next := mem[cacheHead].next;
        cacheCount := cacheCount - 1;
        mem := mem - {cacheHead};
        Snoc(gone, cache[0]);
        SearchGoesOn(old(cache), size, gone, cache);
        gone, cache := gone + [cache[0]], cache[1..];
        cacheHead := next;
      }
    }

    method PopLocal(size: nat) returns (stack: nat)
      requires Valid()
      modifies this
      ensures Valid() && depot == old(depot)
      ensures var (got, rest, gone) := Magazine.PopLocal(old(cache), size);
              && cache == rest
              && stack == (if got.Some? then got.value.addr else 0) && (got.Some? <==> stack != 0)
              && mem.Keys == old(mem.Keys) - Addrs(gone)
      ensures stack != 0 ==> stack in mem && Away(stack, cache) && Away(stack, depot)
    {
      ghost var gone := DropMismatched(size);
      SearchEnds(old(cache), size, gone, cache);
      if cacheHead == 0 {
        return 0;
      }
      Pop(mem, cacheHead, cache);
      stack := cacheHead;
      cacheHead := mem[stack].next;
      cacheCount := cacheCount - 1;
      cache := cache[1..];
    }

    /** The head of the depot goes to the cache if it has the size asked for, and is unmapped if not. */
    method TakeFromDepot(size: nat) returns (took: bool)
      requires Valid() && depotHead != 0
      modifies this
      ensures Valid() && old(depot) != [] && depot == old(depot)[1..]
      ensures took == (old(depot)[0].size == size)
      ensures cache == if took then [old(depot)[0]] + old(cache) else old(cache)
      ensures mem.Keys == if took then old(mem.Keys) else old(mem.Keys) - {old(depot)[0].addr}
    {
      var g := depotHead;
      depotHead := mem[g].next;
      depotCount := depotCount - 1;
      took := mem[g].size == size;
      if !took {
        DropFirst(mem, g, depot, cacheHead, cache);
        mem := mem - {g};
        depot := depot[1..];
      } else {
        MoveFirst(mem, g, depot, cacheHead, cache);
        mem := mem[g := Header(cacheHead, mem[g].size)];
        cacheHead := g;
        cacheCount := cacheCount + 1;
        cache, depot := [depot[0]] + cache, depot[1..];
      }
    }

    method RefillFromGlobal(size: nat)
      requires Valid()
      modifies this
      ensures Valid()
      ensures var (c, d, gone) := Refill(old(cache), old(depot), size, REFILL_BATCH);
              && cache == c && depot == d
              && mem.Keys == old(mem.Keys) - Addrs(gone)
    {
      ghost var gone: seq<Stk> := [];
      var moved := 0;
      RefillStarts(cache, depot, size);
      while moved < REFILL_BATCH && depotHead != 0
        invariant 0 <= moved <= REFILL_BATCH && Valid()
        invariant RefillUnderway(old(cache), old(depot), size, cache, depot, REFILL_BATCH - moved, gone)
        invariant mem.Keys == old(mem.Keys) - Addrs(gone)
        decreases |depot|
      {
        RefillGoesOn(old(cache), old(depot), size, cache, depot, REFILL_BATCH - moved, gone);
        Snoc(gone, depot[0]);
        ghost var first := depot[0];
        var took := TakeFromDepot(size);
        if took {
          moved := moved + 1;
        } else {
          gone := gone + [first];
        }
      }
      RefillEnds(old(cache), old(depot), size, cache, depot, REFILL_BATCH - moved, gone);
    }

    /** Cut the cache after `keep` entries; what is cut off is returned as a list of its own. */
    method CutAfter(keep: nat) returns (moveHead: nat)
      requires Valid() && keep < |cache|
      modifies this
      ensures cache == old(cache)[..keep] && depot == old(depot) && depotHead == old(depotHead)
      ensures cacheCount == |cache| && depotCount == |depot|
      ensures Two(mem, moveHead, old(cache)[keep..], depotHead, depot)
      ensures Two(mem, cacheHead, cache, depotHead, depot)
      ensures Two(mem, cacheHead, cache, moveHead, old(cache)[keep..])
      ensures mem.Keys == old(mem.Keys)
    {
      ghost var s := cache;
      if keep == 0 {
        moveHead := cacheHead;
        cacheHead, cacheCount, cache := 0, 0, [];
        assert s[0..] == s;
        return;
      }
      var keepTail := cacheHead;
      var i := 1;
      while i < keep
        invariant 1 <= i <= keep && keepTail == s[i - 1].addr
        invariant mem == old(mem)
      {
        assert Linked(mem, s, i - 1);
        keepTail := mem[keepTail].next;
        i := i + 1;
      }
      CutFront(mem, cacheHead, s, keep);
      CutBack(mem, cacheHead, s, keep);
      moveHead := mem[keepTail].next;
      ghost var was := mem;
      mem := mem[keepTail := Header(0, mem[keepTail].size)];
      Frame(was, mem, moveHead, s[keep..], keepTail);
      Frame(was, mem, depotHead, depot, keepTail);
      cacheCount, cache := keep, s[..keep];
    }

    /** One stack that was cut off goes to the depot while that is below its cap, else it is unmapped. */
    method GiveToDepot(moveHead: nat, ghost moved: seq<Stk>, cap: nat) returns (next: nat)
      requires moveHead != 0 && Two(mem, moveHead, moved, depotHead, depot) && depotCount == |depot|
      requires Two(mem, cacheHead, cache, depotHead, depot) && Two(mem, cacheHead, cache, moveHead, moved)
      modifies this`mem, this`depotHead, this`depotCount, this`depot
      ensures moved != [] && Two(mem, next, moved[1..], depotHead, depot) && depotCount == |depot|
      ensures Two(mem, cacheHead, cache, depotHead, depot) && Two(mem, cacheHead, cache, next, moved[1..])
      ensures depot == if |old(depot)| < cap then [moved[0]] + old(depot) else old(depot)
      ensures mem.Keys == if |old(depot)| < cap then old(mem.Keys) else old(mem.Keys) - {moved[0].addr}
    {
      next := mem[moveHead].next;
      ghost var was := mem;
      if depotCount < cap {
        MoveFirst(mem, moveHead, moved, depotHead, depot);
        mem := mem[moveHead := Header(depotHead, mem[moveHead].size)];
        depotHead := moveHead;
        depotCount := depotCount + 1;
        depot := [moved[0]] + depot;
      } else {
        DropFirst(mem, moveHead, moved, depotHead, depot);
        mem := mem - {moveHead};
      }
      Frame(was, mem, cacheHead, cache, moveHead);
    }

    /** A cache longer than `keep` is cut there and the rest flushed. */
    method FlushToGlobal(keep: nat, cap: nat)
      requires Valid()
      modifies this
      ensures Valid()
      ensures |old(cache)| <= keep ==> cache == old(cache) && depot == old(depot) && mem == old(mem)
      ensures |old(cache)| > keep ==>
                var (d, gone) := Flush(old(depot), old(cache)[keep..], cap);
                cache == old(cache)[..keep] && depot == d && mem.Keys == old(mem.Keys) - Addrs(gone)
    {
      if cacheCount <= keep {
        return;
      }
      ghost var moved, gone := cache[keep..], [];
      var moveHead := CutAfter(keep);
      FlushStarts(depot, moved, cap);
      while moveHead != 0
        invariant Two(mem, moveHead, moved, depotHead, depot) && depotCount == |depot|
        invariant Two(mem, cacheHead, cache, depotHead, depot) && Two(mem, cacheHead, cache, moveHead, moved)
        invariant cache == old(cache)[..keep] && cacheCount == |cache|
        invariant FlushUnderway(old(depot), old(cache)[keep..], cap, depot, moved, gone)
        invariant mem.Keys == old(mem.Keys) - Addrs(gone)
        decreases |moved|
      {
        FlushGoesOn(old(depot), old(cache)[keep..], cap, depot, moved, gone);
        Snoc(gone, moved[0]);
        if depotCount >= cap {
          gone := gone + [moved[0]];
        }
        moveHead := GiveToDepot(moveHead, moved, cap);
        moved := moved[1..];
      }
      assert gone + [] == gone;
    }

    /** A released stack goes on the cache; an overflowing cache is flushed. */
    method Release(stack: nat, size: nat, cap: nat)
      requires Valid() && stack in mem && stack != 0 && Away(stack, cache) && Away(stack, depot)
      modifies this
      ensures Valid() && |cache| <= TLS_CAP
      ensures var pushed := [Stk(stack, size)] + old(cache);
              if |pushed| <= TLS_CAP then cache == pushed && depot == old(depot) && mem.Keys == old(mem.Keys)
              else
                var (d, gone) := Flush(old(depot), pushed[TLS_KEEP..], cap);
                cache == pushed[..TLS_KEEP] && depot == d && mem.Keys == old(mem.Keys) - Addrs(gone)
    {
      Push(mem, cacheHead, cache, Stk(stack, size));
      ghost var was := mem;
      mem := mem[stack := Header(cacheHead, size)];
      Frame(was, mem, depotHead, depot, stack);
      cacheHead := stack;
      cacheCount := cacheCount + 1;
      cache := [Stk(stack, size)] + cache;
      if cacheCount > TLS_CAP {
        FlushToGlobal(TLS_KEEP, cap);
      }
    }

    /** `mapped`: what mmap gives, 0 if it fails; never an address still mapped. */
    method Acquire(size: nat, mapped: nat) returns (stack: nat)
      requires Valid() && mapped !in mem
      modifies this
      ensures Valid()
      ensures var (got, rest, _) := Magazine.PopLocal(old(cache), size);
              if got.Some? then stack == got.value.addr && cache == rest && depot == old(depot)
              else
                var (filled, left, _) := Refill([], old(depot), size, REFILL_BATCH);
                var (got', rest', _) := Magazine.PopLocal(filled, size);
                stack == (if got'.Some? then got'.value.addr else mapped) && cache == rest' && depot == left
      ensures stack == mapped || Stk(stack, size) in old(cache) + old(depot)
      ensures stack != 0 ==> stack in mem && Away(stack, cache) && Away(stack, depot)
    {
      stack := PopLocal(size);
      Given(old(cache), size);
      if stack != 0 {
        return;
      }
      RefillFromGlobal(size);
      FilledFrom(old(depot), size);
      Given(cache, size);
      stack := PopLocal(size);
      if stack != 0 {
        return;
      }
      stack := mapped;
      if mapped != 0 {
        Unlisted(mem, cacheHead, cache, mapped);
        Unlisted(mem, depotHead, depot, mapped);
        Bystander(mem, mem[mapped := Header(0, size)], cacheHead, cache, depotHead, depot, mapped);
        mem := mem[mapped := Header(0, size)];
      }
    }
  }
}
