/**
 Copy-on-grow of a suspended coroutine's stack: the live words move to a larger mapping with
 the high ends aligned, and every word that points into the old stack is rewritten.
 */
module StackGrow {
  import opened Options

  const WORD := 8
  const GROW_MAX := 0x80_0000   // 8 MB

  /** A stack of 8-byte words at addresses lo, lo+8, ...; it is live from `sp` up. */
  datatype Stack = Stack(lo: int, words: seq<int>, sp: int)

  function Hi(s: Stack): int { s.lo + WORD * |s.words| }

  /** The saved stack pointer is a word address of the stack, or its high end. */
  predicate Suspended(s: Stack) {
    s.lo <= s.sp <= Hi(s) && (s.sp - s.lo) % WORD == 0
  }

  /** Points into the old usable range, as the rewrite loop tests it. */
  predicate Inside(s: Stack, v: int) { s.lo <= v < Hi(s) }

  function Delta(s: Stack, lo: int, n: nat): int { lo + WORD * n - Hi(s) }

  function Rewritten(s: Stack, delta: int, v: int): int {
    if Inside(s, v) then v + delta else v
  }

  /** The index of the first live word. */
  function First(s: Stack): (k: nat)
    requires Suspended(s)
    ensures k <= |s.words| && s.sp == s.lo + WORD * k
  {
    (s.sp - s.lo) / WORD
  }

  /** The stack after it moved to `n` words at `lo`; a fresh mapping reads as zero below. */
  function Moved(s: Stack, lo: int, n: nat): (s': Stack)
    requires Suspended(s) && |s.words| <= n
    ensures Suspended(s') && |s'.words| == n && s'.lo == lo && Hi(s') - s'.sp == Hi(s) - s.sp
  {
    var d, delta := n - |s.words|, Delta(s, lo, n);
    Stack(lo,
          seq(n, k requires 0 <= k < n => if k < First(s) + d then 0 else Rewritten(s, delta, s.words[k - d])),
          s.sp + delta)
  }

  // ---- what a move preserves ------------------------------------------------------------------------

  /** A word address in the live region. */
  predicate Live(s: Stack, a: int) {
    s.sp <= a < Hi(s) && (a - s.lo) % WORD == 0
  }

  function Load(s: Stack, a: int): int
    requires Live(s, a) && s.lo <= s.sp
  {
    s.words[(a - s.lo) / WORD]
  }

  /** Every live word keeps its distance from the top; words pointing into the old range are
      shifted by the move, all others are unchanged. */
  lemma LiveWordsMove(s: Stack, lo: int, n: nat, a: int)
    requires Suspended(s) && |s.words| <= n && Live(s, a)
    ensures var s', delta := Moved(s, lo, n), Delta(s, lo, n);
            && Live(s', a + delta) && Hi(s') - (a + delta) == Hi(s) - a
            && Load(s', a + delta) == Rewritten(s, delta, Load(s, a))
  {
    var s', delta, d := Moved(s, lo, n), Delta(s, lo, n), n - |s.words|;
    var k := (a - s.lo) / WORD;
    assert a == s.lo + WORD * k && k >= First(s);
    assert a + delta == s'.lo + WORD * (k + d);
    assert (a + delta - s'.lo) / WORD == k + d;
  }

  /** Follows pointers from address `a`: load a word, add a displacement, load there, and so on.
      The result is the visited distances from the top, or None as soon as an address leaves
      the live region or a word followed does not point into the stack. */
  function Chase(s: Stack, a: int, hops: seq<int>): Option<seq<int>>
    requires Suspended(s)
    decreases |hops|
  {
    if !Live(s, a) then None
    else if hops == [] then Some([Hi(s) - a])
    else if !Inside(s, Load(s, a)) then None
    else match Chase(s, Load(s, a) + hops[0], hops[1..])
      case None => None
      case Some(r) => Some([Hi(s) - a] + r)
  }

  /** A pointer chase visits the same distances from the top on the new stack. */
  lemma {:induction false} ChaseMoves(s: Stack, lo: int, n: nat, a: int, hops: seq<int>)
    requires Suspended(s) && |s.words| <= n && Chase(s, a, hops).Some?
    ensures Chase(Moved(s, lo, n), a + Delta(s, lo, n), hops) == Chase(s, a, hops)
    decreases |hops|
  {
    LiveWordsMove(s, lo, n, a);
    if hops != [] {
      var delta, v := Delta(s, lo, n), Load(s, a);
      ChaseMoves(s, lo, n, v + hops[0], hops[1..]);
      assert v + delta + hops[0] == v + hops[0] + delta;
    }
  }

  /** A grow that did happen: where the new mapping is and how many words it has. */
  datatype Grow = Grow(lo: int, n: nat)

  ghost predicate Growing(words: nat, grows: seq<Grow>)
    decreases |grows|
  {
    grows == [] || (words <= grows[0].n && Growing(grows[0].n, grows[1..]))
  }

  function MovedAll(s: Stack, grows: seq<Grow>): (s': Stack)
    requires Suspended(s) && Growing(|s.words|, grows)
    ensures Suspended(s') && Hi(s') - s'.sp == Hi(s) - s.sp
    decreases |grows|
  {
    if grows == [] then s else MovedAll(Moved(s, grows[0].lo, grows[0].n), grows[1..])
  }

  /** After any sequence of grows, every pointer chase that starts at a fixed distance above the
      saved stack pointer visits the same distances from the top as before the first grow. */
  lemma {:induction false} ChaseSurvivesGrows(s: Stack, grows: seq<Grow>, up: int, hops: seq<int>)
    requires Suspended(s) && Growing(|s.words|, grows) && Chase(s, s.sp + up, hops).Some?
    ensures Chase(MovedAll(s, grows), MovedAll(s, grows).sp + up, hops) == Chase(s, s.sp + up, hops)
    decreases |grows|
  {
    if grows != [] {
      var lo, n := grows[0].lo, grows[0].n;
      ChaseMoves(s, lo, n, s.sp + up, hops);
      assert Moved(s, lo, n).sp + up == s.sp + up + Delta(s, lo, n);
      ChaseSurvivesGrows(Moved(s, lo, n), grows[1..], up, hops);
    }
  }

  /** Exactly when one hop survives a move to another mapping: the word followed points into the
      old stack. A pointer to just past its end, off which live words are addressed, does not. */
  lemma HopSurvivesExactly(s: Stack, lo: int, n: nat, a: int, hop: int)
    requires Suspended(s) && |s.words| <= n && Live(s, a) && Live(s, Load(s, a) + hop)
    requires Delta(s, lo, n) != 0   // both mappings exist during the copy
    ensures var s', delta := Moved(s, lo, n), Delta(s, lo, n);
            && Live(s', a + delta)
            && (Hi(s') - (Load(s', a + delta) + hop) == Hi(s) - (Load(s, a) + hop) <==> Inside(s, Load(s, a)))
  {
    LiveWordsMove(s, lo, n, a);
  }

  /** Such a stack: one live word, holding the address of the high end. */
  lemma PastTheEndIsLost()
    ensures var s, s' := Stack(4096, [4104], 4096), Moved(Stack(4096, [4104], 4096), 8192, 2);
            && Live(s, Load(s, s.sp) - WORD)
            && Load(s', s'.sp) - WORD == 4096 && !Live(s', 4096)
  {
    var s := Stack(4096, [4104], 4096);
    LiveWordsMove(s, 8192, 2, 4096);
  }

  // ---- how often a stack grows ---------------------------------------------------------------------------

  function RoundToPage(size: nat, page: nat): (r: nat)
    requires page > 0
    ensures size <= r
  {
    var k := (size + page - 1) / page;
    assert k * page + page > size + page - 1;
    k * page
  }

  /** Whole pages are whole words. */
  lemma PagesAreWords(size: nat, page: nat)
    requires page > 0 && page % WORD == 0
    ensures WORD * (RoundToPage(size, page) / WORD) == RoundToPage(size, page)
  {
    var k, q := (size + page - 1) / page, page / WORD;
    assert page == WORD * q;
    assert k * (WORD * q) == WORD * (k * q);
    assert RoundToPage(size, page) == WORD * (k * q);
  }

  /** The size the resume heuristic asks for, given the bytes free below the stack pointer;
      None when it leaves the stack alone. */
  function Target(size: nat, headroom: int, page: nat): Option<nat>
    requires page > 0
  {
    if size >= GROW_MAX || headroom <= 0 || headroom >= size / 4 then None
    else
      var n := RoundToPage(if 2 * size > GROW_MAX then GROW_MAX else 2 * size, page);
      if n <= size then None else Some(n)
  }

  /** Unless the 8 MB ceiling cut the doubling short, a grow leaves at least half the new stack,
      hence more than the quarter that triggers the next grow. */
  lemma GrowLeavesHeadroom(size: nat, headroom: int, page: nat)
    requires page > 0 && Target(size, headroom, page).Some? && 2 * size <= GROW_MAX
    ensures var n := Target(size, headroom, page).value;
            && 2 * (headroom + (n - size)) >= n
            && headroom + (n - size) >= n / 4
  {
  }

  /** Rounding gives the least whole number of pages. */
  lemma RoundingIsTight(size: nat, page: nat)
    requires page > 0
    ensures var r := RoundToPage(size, page); size <= r < size + page && r % page == 0
  {
    var k := (size + page - 1) / page;
    assert k * page <= size + page - 1;
    Multiple(k, page);
  }

  lemma Multiple(k: nat, page: nat)
    requires page > 0
    ensures (k * page) % page == 0
  {
    var x := k * page;
    var d := k - x / page;
    assert d * page == x % page;
    assert d >= 1 ==> d * page - page >= 0;
    assert d <= -1 ==> d * page + page <= 0;
  }

  /** Exactly when a resume asks for a larger stack: it is below the ceiling, the stack pointer is
      inside it, and less than a quarter is free. It then asks for the double, or the ceiling, in
      whole pages and no page more. After a grow that could be made, less than a quarter is free
      only at the ceiling. */
  lemma GrowsExactlyWhenTight(size: nat, headroom: int, page: nat)
    requires page > 0
    ensures var t := Target(size, headroom, page);
            var want := if 2 * size > GROW_MAX then GROW_MAX else 2 * size;
            && (t.Some? <==> size < GROW_MAX && 0 < headroom < size / 4)
            && (t.Some? ==> t.value % page == 0 && want <= t.value < want + page)
            && (headroom > 0 && size < GROW_MAX ==>
                  var now := if t.Some? then t.value else size;
                  now >= GROW_MAX || headroom + (now - size) >= now / 4)
  {
    var want := if 2 * size > GROW_MAX then GROW_MAX else 2 * size;
    RoundingIsTight(want, page);
  }

  /** One resume: how much headroom there was and whether the new mapping could be made. */
  datatype Resume = Resume(headroom: int, mapped: bool)

  /** Size and number of grows after a run of resumes. */
  function Grown(size: nat, page: nat, run: seq<Resume>): (r: (nat, nat))
    requires page > 0
  {
    if run == [] then (size, 0)
    else
      var (now, k) := Grown(size, page, run[..|run| - 1]);
      var last := run[|run| - 1];
      var t := Target(now, last.headroom, page);
      if t.Some? && last.mapped then (t.value, k + 1) else (now, k)
  }

  function Pow2(k: nat): nat { if k == 0 then 1 else 2 * Pow2(k - 1) }

  /** A grow doubles the stack or reaches the ceiling. */
  lemma TargetDoubles(size: nat, headroom: int, page: nat)
    requires page > 0 && Target(size, headroom, page).Some?
    ensures size < GROW_MAX
    ensures Target(size, headroom, page).value >= 2 * size || Target(size, headroom, page).value >= GROW_MAX
  {
  }

  /** k grows have at least doubled the stack k times, up to the ceiling, and the one before the
      last left it below the ceiling. */
  lemma {:induction false} GrowsDouble(size: nat, page: nat, run: seq<Resume>)
    requires page > 0
    ensures var (now, k) := Grown(size, page, run);
            && (now >= GROW_MAX || now >= Pow2(k) * size)
            && (k > 0 ==> Pow2(k - 1) * size < GROW_MAX)
    decreases |run|
  {
    if run == [] {
      assert Pow2(0) * size == size;
    } else {
      GrowsDouble(size, page, run[..|run| - 1]);
      var (was, j) := Grown(size, page, run[..|run| - 1]);
      var last := run[|run| - 1];
      if Target(was, last.headroom, page).Some? && last.mapped {
        TargetDoubles(was, last.headroom, page);
        var p := Pow2(j) * size;
        Twice(Pow2(j), size);
        assert Grown(size, page, run).1 == j + 1 && Pow2(j + 1) * size == 2 * p;
      }
    }
  }

  lemma Twice(a: nat, b: nat)
    ensures (2 * a) * b == 2 * (a * b)
  {
  }

  lemma {:induction false} Pow2Grows(a: nat, b: nat)
    requires a <= b
    ensures Pow2(a) <= Pow2(b)
    decreases b
  {
    if a < b { Pow2Grows(a, b - 1); }
  }

  lemma Products(a: nat, b: nat, c: nat, d: nat)
    requires a <= b && c <= d
    ensures a * c <= b * d
  {
    assert a * c <= b * c <= b * d;
  }

  /** A stack of at least one 4 KB page, the smallest there is, grows at most eleven times. */
  lemma AtMostElevenGrows(size: nat, page: nat, run: seq<Resume>)
    requires page > 0 && size >= 4096
    ensures Grown(size, page, run).1 <= 11
  {
    GrowsDouble(size, page, run);
    assert Pow2(11) == 2048 by { assert Pow2(4) == 16; assert Pow2(8) == 256; }
    var k := Grown(size, page, run).1;
    if k > 11 {
      Pow2Grows(11, k - 1);
      Products(2048, Pow2(k - 1), 4096, size);
    }
  }

  // ---- the object ----------------------------------------------------------------------------------------------

  /** What becomes of the old mapping: its address and its words. */
  datatype Disposal = Kept | ToArena(lo: int, n: nat) | Unmapped(lo: int, n: nat)

  class Coro {
    var lo: int
    var words: array<int>
    var sp: int
    var grown: bool

    function View(): Stack
      reads this, words
    {
      Stack(lo, words[..], sp)
    }

    ghost predicate Unmoved(was: array<int>, before: Stack, flag: bool)
      reads this, words
    {
      words == was && View() == before && grown == flag
    }

    constructor (lo: int, n: nat)
      ensures lo == this.lo && words.Length == n && sp == lo + WORD * n && fresh(words)
      ensures Suspended(View())
    {
      this.lo := lo;
      words := new int[n](_ => 0);
      sp := lo + WORD * n;
      grown := false;
    }

    /** Grows to at least `request` bytes, rounded up to whole pages: the stack moves to `newLo` and
        the old mapping goes back to its arena or is unmapped. Answers -1 and changes nothing when
        the saved stack pointer is out of range or there is no mapping. */
    method GrowTo(request: nat, page: nat, newLo: Option<int>, inArena: bool) returns (rc: int, was: Disposal)
      requires (sp - lo) % WORD == 0 && page > 0 && page % WORD == 0
      modifies this
      ensures WORD * (RoundToPage(request, page) / WORD) == RoundToPage(request, page) >= request
      ensures var n, before := RoundToPage(request, page) / WORD, old(View());
              if n <= |before.words| then rc == 0 && was == Kept && Unmoved(old(words), before, old(grown))
              else if !Suspended(before) || newLo.None? then
                rc == -1 && was == Kept && Unmoved(old(words), before, old(grown))
              else
                && rc == 0 && grown && fresh(words) && View() == Moved(before, newLo.value, n)
                && was == (if inArena then ToArena(before.lo, |before.words|) else Unmapped(before.lo, |before.words|))
    {
      was := Kept;
      var n := RoundToPage(request, page) / WORD;
      PagesAreWords(request, page);
      if n <= words.Length { return 0, Kept; }
      if sp < lo || sp > lo + WORD * words.Length { return -1, Kept; }
      if newLo.None? { return -1, Kept; }
      ghost var s := View();
      var oldLo, oldHi, base := lo, lo + WORD * words.Length, newLo.value;
      var delta := base + WORD * n - oldHi;
      var first, d := (sp - lo) / WORD, n - words.Length;
      var moved := new int[n](_ => 0);
      for k := first to words.Length
        invariant View() == s && fresh(moved)
        invariant forall j :: 0 <= j < n ==> moved[j] == if first + d <= j < k + d then s.words[j - d] else 0
      {
        moved[k + d] := words[k];
      }
      for j := first + d to n
        invariant View() == s && fresh(moved)
        invariant forall i :: 0 <= i < n ==>
                    moved[i] == if i < first + d then 0
                                      else if i < j then Rewritten(s, delta, s.words[i - d]) else s.words[i - d]
      {
        var v := moved[j];
        if v >= oldLo && v < oldHi { moved[j] := v + delta; }
      }
      was := if inArena then ToArena(lo, words.Length) else Unmapped(lo, words.Length);
      sp := sp + delta;
      lo := base;
      words := moved;
      grown := true;
      rc := 0;
      assert first == First(s) && delta == Delta(s, base, n);
      forall k | 0 <= k < n ensures words[k] == Moved(s, base, n).words[k] { }
      assert words[..] == Moved(s, base, n).words;
    }
  }
}
