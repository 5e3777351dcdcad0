/**
 The stack arena: a table of classes, one per slot size and NUMA node, each a mapping carved
 by a bump cursor that rewinds when its topmost range is freed and resets when it drains.
 Every operation runs under the arena lock.
 */
module Arena {
  import opened Options

  datatype Class = Class(base: int, slot: nat, cap: nat, next: nat, live: nat, node: int)

  type Table = seq<Option<Class>>

  /** What mmap gave for a new class: where and how many slots. */
  datatype Mapping = Mapping(base: int, cap: nat)

  // ---- the operations ---------------------------------------------------------------------------

  predicate Keyed(e: Option<Class>, slot: nat, node: int) {
    e.Some? && e.value.slot == slot && e.value.node == node
  }

  /** The first entry of the class, from index i on; |t| when there is none. */
  function Find(t: Table, slot: nat, node: int, i: nat): (k: nat)
    requires i <= |t|
    ensures i <= k <= |t| && (k < |t| ==> Keyed(t[k], slot, node))
    ensures forall j :: i <= j < k ==> !Keyed(t[j], slot, node)
    decreases |t| - i
  {
    if i == |t| || Keyed(t[i], slot, node) then i else Find(t, slot, node, i + 1)
  }

  function FindFree(t: Table, i: nat): (k: nat)
    requires i <= |t|
    ensures i <= k <= |t| && (k < |t| ==> t[k].None?)
    ensures forall j :: i <= j < k ==> t[j].Some?
    decreases |t| - i
  {
    if i == |t| || t[i].None? then i else FindFree(t, i + 1)
  }

  /** The entry of the class, mapped now if need be; |t| when that is impossible. */
  function ClassFor(t: Table, slot: nat, node: int, m: Option<Mapping>): (r: (Table, nat))
    ensures |r.0| == |t| && (r.1 < |t| ==> Keyed(r.0[r.1], slot, node)) && (r.1 >= |t| ==> r.0 == t)
  {
    var k, f := Find(t, slot, node, 0), FindFree(t, 0);
    if k < |t| then (t, k)
    else if f < |t| && m.Some? then (t[f := Some(Class(m.value.base, slot, m.value.cap, 0, 0, node))], f)
    else (t, |t|)
  }

  /** Reserves n slots: the start slot and the class base, or None. */
  function Alloc(t: Table, n: nat, slot: nat, node: int, m: Option<Mapping>): (r: (Table, Option<(nat, int)>))
    ensures |r.0| == |t|
  {
    var (t', k) := ClassFor(t, slot, node, m);
    if k < |t| && t'[k].value.next + n <= t'[k].value.cap then
      var c := t'[k].value;
      (t'[k := Some(c.(next := c.next + n, live := c.live + n))], Some((c.next, c.base)))
    else (t', None)
  }

  function Released(c: Class, start: nat, n: nat): Class {
    var live := if c.live >= n then c.live - n else c.live;
    c.(live := live, next := if live == 0 then 0 else if start + n == c.next then start else c.next)
  }

  function Free(t: Table, start: nat, n: nat, slot: nat, node: int): (t': Table)
    ensures |t'| == |t|
  {
    var k := Find(t, slot, node, 0);
    if k < |t| then t[k := Some(Released(t[k].value, start, n))] else t
  }

  /** The class whose mapping holds address p: its base, slot size and node. */
  function ClassOf(t: Table, p: int, i: nat): (r: Option<Class>)
    requires i <= |t|
    decreases |t| - i
  {
    if i == |t| then None
    else if t[i].Some? && t[i].value.base <= p < t[i].value.base + t[i].value.cap * t[i].value.slot then t[i]
    else ClassOf(t, p, i + 1)
  }

  // ---- runs ---------------------------------------------------------------------------------------------

  /** A range handed out and not yet freed. */
  datatype Range = Range(slot: nat, node: int, start: nat, n: nat)

  datatype State = State(t: Table, out: seq<Range>)

  datatype Action =
    | DoAlloc(n: nat, slot: nat, node: int, m: Option<Mapping>)
    | DoFree(i: nat)   // the i-th outstanding range, whole

  predicate Fits(t: Table, m: Mapping, slot: nat) {
    forall i :: 0 <= i < |t| && t[i].Some? ==>
      m.base + m.cap * slot <= t[i].value.base || t[i].value.base + t[i].value.cap * t[i].value.slot <= m.base
  }

  /** Slots and ranges are non-empty, and mmap never hands out memory that is in use. */
  function Step(s: State, a: Action): State {
    match a
    case DoAlloc(n, slot, node, m) =>
      if n == 0 || slot == 0 || (m.Some? && !Fits(s.t, m.value, slot)) then s
      else
        var (t, r) := Alloc(s.t, n, slot, node, m);
        if r.None? then s.(t := t) else State(t, s.out + [Range(slot, node, r.value.0, n)])
    case DoFree(i) =>
      if i >= |s.out| then s
      else
        var r := s.out[i];
        State(Free(s.t, r.start, r.n, r.slot, r.node), s.out[..i] + s.out[i + 1..])
  }

  function Init(entries: nat): State { State(seq(entries, _ => None), []) }

  function Exec(s: State, run: seq<Action>): State {
    if run == [] then s else Step(Exec(s, run[..|run| - 1]), run[|run| - 1])
  }

  // ---- the invariant ------------------------------------------------------------------------------------------

  predicate Of(r: Range, c: Class) { r.slot == c.slot && r.node == c.node }

  /** Slots outstanding in a class. */
  function Total(out: seq<Range>, c: Class): nat {
    if out == [] then 0
    else Total(out[..|out| - 1], c) + if Of(out[|out| - 1], c) then out[|out| - 1].n else 0
  }

  predicate Apart(r: Range, q: Range) { r.start + r.n <= q.start || q.start + q.n <= r.start }

  /** Outstanding ranges of one class do not overlap. */
  ghost predicate Disjoint(out: seq<Range>) {
    forall i, j ::
      0 <= i < j < |out| && out[i].slot == out[j].slot && out[i].node == out[j].node ==> Apart(out[i], out[j])
  }

  /** A class counts its outstanding slots and keeps its cursor above all of them. */
  ghost predicate Counted(out: seq<Range>, c: Class) {
    && c.slot > 0 && c.next <= c.cap
    && c.live == Total(out, c)
    && (forall r :: r in out && Of(r, c) ==> r.start + r.n <= c.next)
  }

  ghost predicate Inv(s: State) {
    && Disjoint(s.out)
    && (forall r :: r in s.out ==> r.n > 0 && exists i :: 0 <= i < |s.t| && Keyed(s.t[i], r.slot, r.node))
    && (forall i :: 0 <= i < |s.t| && s.t[i].Some? ==> Counted(s.out, s.t[i].value))
    && (forall i, j :: 0 <= i < j < |s.t| && s.t[i].Some? && s.t[j].Some? ==> Separate(s.t[i].value, s.t[j].value))
  }

  /** Two classes have different keys and different memory. */
  ghost predicate Separate(c: Class, d: Class) {
    && !(c.slot == d.slot && c.node == d.node)
    && (c.base + c.cap * c.slot <= d.base || d.base + d.cap * d.slot <= c.base)
  }

  // ---- proofs -----------------------------------------------------------------------------------------------------

  lemma {:induction false} TotalConcat(a: seq<Range>, b: seq<Range>, c: Class)
    ensures Total(a + b, c) == Total(a, c) + Total(b, c)
    decreases |b|
  {
    if b == [] {
      assert a + b == a;
    } else {
      assert (a + b)[..|a + b| - 1] == a + b[..|b| - 1];
      TotalConcat(a, b[..|b| - 1], c);
    }
  }

  lemma TotalOne(r: Range, c: Class)
    ensures Total([r], c) == if Of(r, c) then r.n else 0
  {
    assert [r][..0] == [];
  }

  lemma {:induction false} TotalZero(out: seq<Range>, c: Class)
    requires Total(out, c) == 0 && forall r :: r in out ==> r.n > 0
    ensures forall r :: r in out ==> !Of(r, c)
    decreases |out|
  {
    if out != [] {
      TotalZero(out[..|out| - 1], c);
      assert out == out[..|out| - 1] + [out[|out| - 1]];
    }
  }

  lemma {:induction false} TotalNone(out: seq<Range>, c: Class)
    requires forall r :: r in out ==> !Of(r, c)
    ensures Total(out, c) == 0
    decreases |out|
  {
    if out != [] { TotalNone(out[..|out| - 1], c); }
  }

  lemma {:induction false} TotalSame(out: seq<Range>, c: Class, d: Class)
    requires c.slot == d.slot && c.node == d.node
    ensures Total(out, c) == Total(out, d)
    decreases |out|
  {
    if out != [] { TotalSame(out[..|out| - 1], c, d); }
  }

  /** Mapping a new class leaves everything outstanding as it was. */
  lemma ClassForKeeps(s: State, slot: nat, node: int, m: Option<Mapping>)
    requires Inv(s) && slot > 0 && (m.Some? ==> Fits(s.t, m.value, slot))
    ensures Inv(s.(t := ClassFor(s.t, slot, node, m).0))
  {
    var t', k := ClassFor(s.t, slot, node, m).0, ClassFor(s.t, slot, node, m).1;
    if t' != s.t {
      var c := t'[k].value;
      assert forall i :: 0 <= i < |s.t| ==> !Keyed(s.t[i], slot, node);
      forall r | r in s.out ensures !Of(r, c) && exists i :: 0 <= i < |t'| && Keyed(t'[i], r.slot, r.node) {
        var i :| 0 <= i < |s.t| && Keyed(s.t[i], r.slot, r.node);
        assert Keyed(t'[i], r.slot, r.node);
      }
      TotalNone(s.out, c);
    }
  }

  /** The state after entry k handed out its next n slots. */
  function Bumped(s: State, k: nat, n: nat): State
    requires k < |s.t| && s.t[k].Some?
  {
    var c := s.t[k].value;
    State(s.t[k := Some(c.(next := c.next + n, live := c.live + n))], s.out + [Range(c.slot, c.node, c.next, n)])
  }

  lemma BumpCounts(s: State, k: nat, n: nat, i: nat)
    requires Inv(s) && k < |s.t| && s.t[k].Some? && n > 0 && s.t[k].value.next + n <= s.t[k].value.cap
    requires i < |s.t| && s.t[i].Some?
    ensures Counted(Bumped(s, k, n).out, Bumped(s, k, n).t[i].value)
  {
    var s', c := Bumped(s, k, n), s.t[k].value;
    var r := Range(c.slot, c.node, c.next, n);
    assert Counted(s.out, s.t[i].value);
    TotalConcat(s.out, [r], s'.t[i].value);
    TotalOne(r, s'.t[i].value);
    TotalSame(s.out, s.t[i].value, s'.t[i].value);
  }

  lemma BumpKeeps(s: State, k: nat, n: nat)
    requires Inv(s) && k < |s.t| && s.t[k].Some? && n > 0 && s.t[k].value.next + n <= s.t[k].value.cap
    ensures Inv(Bumped(s, k, n))
  {
    var s', c := Bumped(s, k, n), s.t[k].value;
    assert Counted(s.out, c);
    assert Disjoint(s'.out);
    forall i | 0 <= i < |s'.t| && s'.t[i].Some? ensures Counted(s'.out, s'.t[i].value) { BumpCounts(s, k, n, i); }
    forall q | q in s'.out ensures q.n > 0 && exists i :: 0 <= i < |s'.t| && Keyed(s'.t[i], q.slot, q.node) {
      if q in s.out {
        var i :| 0 <= i < |s.t| && Keyed(s.t[i], q.slot, q.node);
        assert Keyed(s'.t[i], q.slot, q.node);
      } else {
        assert Keyed(s'.t[k], q.slot, q.node);
      }
    }
    forall i, j | 0 <= i < j < |s'.t| && s'.t[i].Some? && s'.t[j].Some? ensures Separate(s'.t[i].value, s'.t[j].value) {
      assert Separate(s.t[i].value, s.t[j].value);
    }
  }

  lemma AllocBumps(s: State, n: nat, slot: nat, node: int, m: Option<Mapping>)
    requires n > 0 && slot > 0 && (m.Some? ==> Fits(s.t, m.value, slot))
    requires var (t1, k) := ClassFor(s.t, slot, node, m); k < |s.t| && t1[k].value.next + n <= t1[k].value.cap
    ensures var (t1, k) := ClassFor(s.t, slot, node, m);
            Step(s, DoAlloc(n, slot, node, m)) == Bumped(s.(t := t1), k, n)
  {
    var (t1, k) := ClassFor(s.t, slot, node, m);
    var c := t1[k].value;
    assert c.slot == slot && c.node == node;
    assert Alloc(s.t, n, slot, node, m).1 == Some((c.next, c.base));
  }

  lemma AllocKeeps(s: State, n: nat, slot: nat, node: int, m: Option<Mapping>)
    requires Inv(s)
    ensures Inv(Step(s, DoAlloc(n, slot, node, m)))
  {
    if !(n == 0 || slot == 0 || (m.Some? && !Fits(s.t, m.value, slot))) {
      var (t1, k) := ClassFor(s.t, slot, node, m);
      ClassForKeeps(s, slot, node, m);
      if k < |s.t| && t1[k].value.next + n <= t1[k].value.cap {
        BumpKeeps(s.(t := t1), k, n);
        AllocBumps(s, n, slot, node, m);
      }
    }
  }

  /** Freeing an outstanding range whole keeps the count and never moves the cursor below a
      range still outstanding, neither by the rewind nor by the reset. */
  lemma FreeCounts(s: State, i: nat, k: nat)
    requires Inv(s) && i < |s.out| && k < |s.t| && Keyed(s.t[k], s.out[i].slot, s.out[i].node)
    ensures var r := s.out[i]; Counted(s.out[..i] + s.out[i + 1..], Released(s.t[k].value, r.start, r.n))
  {
    var r, c := s.out[i], s.t[k].value;
    var rest, c' := s.out[..i] + s.out[i + 1..], Released(c, r.start, r.n);
    assert Counted(s.out, c);
    TotalWithout(s.out, i, c);
    TotalSame(rest, c, c');
    assert c'.live == Total(rest, c');
    assert forall q :: q in rest ==> q in s.out;
    if c'.live == 0 {
      TotalZero(rest, c');
    } else {
      forall q | q in rest && Of(q, c') ensures q.start + q.n <= c'.next {
        var j :| 0 <= j < |s.out| && j != i && s.out[j] == q by { OtherIndex(s.out, i, q); }
        assert Apart(q, r);
      }
    }
  }

  lemma OtherIndex(out: seq<Range>, i: nat, q: Range)
    requires i < |out| && q in out[..i] + out[i + 1..]
    ensures exists j :: 0 <= j < |out| && j != i && out[j] == q
  {
    var rest := out[..i] + out[i + 1..];
    var j :| 0 <= j < |rest| && rest[j] == q;
    assert out[if j < i then j else j + 1] == q;
  }

  lemma TotalWithout(out: seq<Range>, i: nat, c: Class)
    requires i < |out|
    ensures Total(out, c) == Total(out[..i] + out[i + 1..], c) + if Of(out[i], c) then out[i].n else 0
  {
    assert out == out[..i] + [out[i]] + out[i + 1..];
    TotalConcat(out[..i] + [out[i]], out[i + 1..], c);
    TotalConcat(out[..i], [out[i]], c);
    TotalOne(out[i], c);
    TotalConcat(out[..i], out[i + 1..], c);
  }

  lemma OthersCount(s: State, i: nat, j: nat)
    requires Inv(s) && i < |s.out| && j < |s.t| && s.t[j].Some? && !Of(s.out[i], s.t[j].value)
    ensures Counted(s.out[..i] + s.out[i + 1..], s.t[j].value)
  {
    assert Counted(s.out, s.t[j].value);
    TotalWithout(s.out, i, s.t[j].value);
    assert forall q :: q in s.out[..i] + s.out[i + 1..] ==> q in s.out;
  }

  lemma StillDisjoint(out: seq<Range>, i: nat)
    requires Disjoint(out) && i < |out|
    ensures Disjoint(out[..i] + out[i + 1..])
  {
    var rest := out[..i] + out[i + 1..];
    forall a, b | 0 <= a < b < |rest| && rest[a].slot == rest[b].slot && rest[a].node == rest[b].node
      ensures Apart(rest[a], rest[b])
    {
      assert rest[a] == out[if a < i then a else a + 1] && rest[b] == out[if b < i then b else b + 1];
    }
  }

  lemma FreeKeeps(s: State, i: nat)
    requires Inv(s)
    ensures Inv(Step(s, DoFree(i)))
  {
    if i < |s.out| {
      var r, s' := s.out[i], Step(s, DoFree(i));
      var k := Find(s.t, r.slot, r.node, 0);
      assert r in s.out;
      assert k < |s.t|;
      StillDisjoint(s.out, i);
      forall j | 0 <= j < |s'.t| && s'.t[j].Some? ensures Counted(s'.out, s'.t[j].value) {
        if j == k { FreeCounts(s, i, k); } else { OthersCount(s, i, j); }
      }
      forall q | q in s'.out ensures q.n > 0 && exists j :: 0 <= j < |s'.t| && Keyed(s'.t[j], q.slot, q.node) {
        OtherIndex(s.out, i, q);
        assert q in s.out;
        var j :| 0 <= j < |s.t| && Keyed(s.t[j], q.slot, q.node);
        assert Keyed(s'.t[j], q.slot, q.node);
      }
      forall a, b | 0 <= a < b < |s'.t| && s'.t[a].Some? && s'.t[b].Some?
        ensures Separate(s'.t[a].value, s'.t[b].value)
      {
        assert Separate(s.t[a].value, s.t[b].value);
      }
    }
  }

  lemma StepKeeps(s: State, a: Action)
    requires Inv(s)
    ensures Inv(Step(s, a))
  {
    match a
    case DoAlloc(n, slot, node, m) => AllocKeeps(s, n, slot, node, m);
    case DoFree(i) => FreeKeeps(s, i);
  }

  lemma {:induction false} Reachable(entries: nat, run: seq<Action>)
    ensures Inv(Exec(Init(entries), run))
    decreases |run|
  {
    if run != [] {
      Reachable(entries, run[..|run| - 1]);
      StepKeeps(Exec(Init(entries), run[..|run| - 1]), run[|run| - 1]);
    }
  }

  // ---- the theorems ------------------------------------------------------------------------------------------------

  /** In every run of allocations and whole frees: outstanding ranges of a class are disjoint,
      lie below its cursor and within its mapping, and its live counter is their total size. */
  lemma RangesAreSound(entries: nat, run: seq<Action>)
    ensures var s := Exec(Init(entries), run);
            && Disjoint(s.out)
            && (forall i :: 0 <= i < |s.t| && s.t[i].Some? ==>
                  && s.t[i].value.live == Total(s.out, s.t[i].value) && s.t[i].value.next <= s.t[i].value.cap
                  && (forall r :: r in s.out && Of(r, s.t[i].value) ==> r.start + r.n <= s.t[i].value.next))
  {
    Reachable(entries, run);
    var s := Exec(Init(entries), run);
    forall i | 0 <= i < |s.t| && s.t[i].Some?
      ensures s.t[i].value.live == Total(s.out, s.t[i].value) && s.t[i].value.next <= s.t[i].value.cap
      ensures forall r :: r in s.out && Of(r, s.t[i].value) ==> r.start + r.n <= s.t[i].value.next
    {
      assert Counted(s.out, s.t[i].value);
    }
  }

  ghost predicate AllSeparate(t: Table) {
    forall i, j :: 0 <= i < j < |t| && t[i].Some? && t[j].Some? ==> Separate(t[i].value, t[j].value)
  }

  lemma FindIsUnique(t: Table, slot: nat, node: int, k: nat)
    requires AllSeparate(t) && k < |t| && Keyed(t[k], slot, node)
    ensures Find(t, slot, node, 0) == k
  {
    var k0 := Find(t, slot, node, 0);
    forall i | k0 < i < |t| ensures !Keyed(t[i], slot, node) {
      assert t[i].Some? ==> Separate(t[k0].value, t[i].value);
    }
  }

  /** What an allocation on a mapped class answers: the slots at the cursor, and a refusal exactly
      when they would pass the capacity. */
  lemma AllocOnClass(t: Table, n: nat, slot: nat, node: int, m: Option<Mapping>, k: nat)
    requires AllSeparate(t) && k < |t| && Keyed(t[k], slot, node)
    ensures var c := t[k].value;
            Alloc(t, n, slot, node, m).1 == if c.next + n <= c.cap then Some((c.next, c.base)) else None
  {
    FindIsUnique(t, slot, node, k);
  }

  /** What an allocation on a new key answers: the first slots of the new mapping, and a refusal
      exactly when there is no free entry, no mapping, or too small a one. */
  lemma AllocOnNewKey(t: Table, n: nat, slot: nat, node: int, m: Option<Mapping>)
    requires forall k :: 0 <= k < |t| ==> !Keyed(t[k], slot, node)
    ensures Alloc(t, n, slot, node, m).1 ==
              if (exists k :: 0 <= k < |t| && t[k].None?) && m.Some? && n <= m.value.cap
              then Some((0, m.value.base)) else None
  {
  }

  /** So in every reachable state: on a mapped class the cursor and the capacity decide. */
  lemma AllocOutcomes(entries: nat, run: seq<Action>, n: nat, slot: nat, node: int, m: Option<Mapping>, k: nat)
    requires var t := Exec(Init(entries), run).t; k < |t| && Keyed(t[k], slot, node)
    ensures var t := Exec(Init(entries), run).t;
            var c := t[k].value;
            Alloc(t, n, slot, node, m).1 == if c.next + n <= c.cap then Some((c.next, c.base)) else None
  {
    Reachable(entries, run);
    AllocOnClass(Exec(Init(entries), run).t, n, slot, node, m, k);
  }

  ghost predicate Restarted(t: Table) {
    forall i :: 0 <= i < |t| && t[i].Some? && t[i].value.live == 0 ==> t[i].value.next == 0
  }

  lemma RestartedStays(s: State, a: Action)
    requires Restarted(s.t)
    ensures Restarted(Step(s, a).t)
  {
  }

  lemma {:induction false} AllRestarted(entries: nat, run: seq<Action>)
    ensures Restarted(Exec(Init(entries), run).t)
    decreases |run|
  {
    if run != [] {
      AllRestarted(entries, run[..|run| - 1]);
      RestartedStays(Exec(Init(entries), run[..|run| - 1]), run[|run| - 1]);
    }
  }

  /** A class none of whose ranges is outstanding starts again at its first slot. */
  lemma DrainedRestarts(entries: nat, run: seq<Action>, i: nat)
    requires i < |Exec(Init(entries), run).t| && Exec(Init(entries), run).t[i].Some?
    ensures var s := Exec(Init(entries), run);
            (forall r :: r in s.out ==> !Of(r, s.t[i].value)) ==> s.t[i].value.next == 0
  {
    var s := Exec(Init(entries), run);
    AllRestarted(entries, run);
    Reachable(entries, run);
    assert Counted(s.out, s.t[i].value);
    if forall r :: r in s.out ==> !Of(r, s.t[i].value) { TotalNone(s.out, s.t[i].value); }
  }

  /** Round trip: freeing what was just allocated gives the class back its cursor and its count. */
  lemma FreeUndoesAlloc(t: Table, n: nat, slot: nat, node: int, m: Option<Mapping>, k: nat)
    requires AllSeparate(t) && Restarted(t) && k < |t| && Keyed(t[k], slot, node) && n > 0
    requires Alloc(t, n, slot, node, m).1.Some?
    ensures var (t', r) := Alloc(t, n, slot, node, m); Free(t', r.value.0, n, slot, node) == t
  {
    FindIsUnique(t, slot, node, k);
    var c := t[k].value;
    var t' := t[k := Some(c.(next := c.next + n, live := c.live + n))];
    assert Alloc(t, n, slot, node, m).0 == t';
    assert Keyed(t'[k], slot, node) && forall j :: 0 <= j < k ==> t'[j] == t[j];
    assert Find(t', slot, node, 0) == k;
    assert Released(t'[k].value, c.next, n) == c;
  }

  lemma AllocThenFree(entries: nat, run: seq<Action>, n: nat, slot: nat, node: int, m: Option<Mapping>, k: nat)
    requires var t := Exec(Init(entries), run).t;
             k < |t| && Keyed(t[k], slot, node) && n > 0 && Alloc(t, n, slot, node, m).1.Some?
    ensures var t := Exec(Init(entries), run).t;
            var (t', r) := Alloc(t, n, slot, node, m);
            Free(t', r.value.0, n, slot, node) == t
  {
    AllRestarted(entries, run);
    Reachable(entries, run);
    FreeUndoesAlloc(Exec(Init(entries), run).t, n, slot, node, m, k);
  }

  /** The usable address of slot `start` of a class. */
  function Carved(c: Class, start: nat, guard: nat): int { c.base + start * c.slot + guard }

  /** What a release recomputes from a bare stack pointer. */
  function Recovered(t: Table, p: int, guard: nat): Option<Range> {
    var c := ClassOf(t, p, 0);
    if c.None? || c.value.slot == 0 || p - guard < c.value.base then None
    else Some(Range(c.value.slot, c.value.node, (p - guard - c.value.base) / c.value.slot, 1))
  }

  lemma Quotient(a: nat, b: nat)
    requires b > 0
    ensures (a * b) / b == a
  {
    var x := a * b;
    var d := a - x / b;
    assert d * b == x % b;
    assert d >= 1 ==> d * b - b >= 0;
    assert d <= -1 ==> d * b + b <= 0;
  }

  lemma SlotArithmetic(start: nat, slot: nat, guard: nat, cap: nat)
    requires guard < slot && start < cap
    ensures (start * slot) / slot == start && 0 <= start * slot && start * slot + guard < cap * slot
  {
    Quotient(start, slot);
    var more := cap - start - 1;
    assert cap * slot == start * slot + slot + more * slot;
    assert more * slot >= 0;
  }

  lemma {:induction false} ClassOfFinds(t: Table, p: int, i: nat, k: nat)
    requires i <= k < |t| && t[k].Some? && t[k].value.base <= p < t[k].value.base + t[k].value.cap * t[k].value.slot
    requires forall a, b :: 0 <= a < b < |t| && t[a].Some? && t[b].Some? ==> Separate(t[a].value, t[b].value)
    ensures ClassOf(t, p, i) == t[k]
    decreases k - i
  {
    if i < k {
      assert t[i].Some? ==> Separate(t[i].value, t[k].value);
      ClassOfFinds(t, p, i + 1, k);
    }
  }

  lemma CarvedIsRecovered(t: Table, k: nat, at: nat, guard: nat)
    requires AllSeparate(t) && k < |t| && t[k].Some? && at < t[k].value.cap && guard < t[k].value.slot
    ensures var c := t[k].value; Recovered(t, Carved(c, at, guard), guard) == Some(Range(c.slot, c.node, at, 1))
  {
    var c := t[k].value;
    SlotArithmetic(at, c.slot, guard, c.cap);
    ClassOfFinds(t, Carved(c, at, guard), 0, k);
  }

  /** Carve and release agree: for every outstanding range, the class and the slot recomputed
      from the address of any of its slots are the ones it was carved from, as long as a slot
      holds more than its guard page. */
  lemma ReleaseFindsItsSlot(entries: nat, run: seq<Action>, i: nat, k: nat, at: nat, guard: nat)
    requires var s := Exec(Init(entries), run);
             && i < |s.out| && k < |s.t| && Keyed(s.t[k], s.out[i].slot, s.out[i].node)
             && guard < s.out[i].slot && s.out[i].start <= at < s.out[i].start + s.out[i].n
    ensures var s := Exec(Init(entries), run);
            Recovered(s.t, Carved(s.t[k].value, at, guard), guard) == Some(Range(s.out[i].slot, s.out[i].node, at, 1))
  {
    Reachable(entries, run);
    var s := Exec(Init(entries), run);
    assert Counted(s.out, s.t[k].value) && s.out[i] in s.out;
    CarvedIsRecovered(s.t, k, at, guard);
  }

  function From(c: Class, r: Range): int { c.base + r.start * c.slot }
  function To(c: Class, r: Range): int { c.base + (r.start + r.n) * c.slot }

  lemma ScaledOrder(a: nat, b: nat, slot: nat)
    requires a <= b
    ensures a * slot <= b * slot
  {
  }

  predicate NoSharedByte(c: Class, r: Range, d: Class, q: Range) {
    To(c, r) <= From(d, q) || To(d, q) <= From(c, r)
  }

  lemma SameClassBytes(c: Class, r: Range, q: Range)
    requires Apart(r, q)
    ensures NoSharedByte(c, r, c, q)
  {
    if r.start + r.n <= q.start {
      ScaledOrder(r.start + r.n, q.start, c.slot);
    } else {
      ScaledOrder(q.start + q.n, r.start, c.slot);
    }
  }

  lemma InsideMapping(c: Class, r: Range)
    requires r.start + r.n <= c.cap
    ensures c.base <= From(c, r) && To(c, r) <= c.base + c.cap * c.slot
  {
    ScaledOrder(r.start + r.n, c.cap, c.slot);
    ScaledOrder(0, r.start, c.slot);
  }

  lemma OtherClassBytes(c: Class, r: Range, d: Class, q: Range)
    requires r.start + r.n <= c.cap && q.start + q.n <= d.cap && (Separate(c, d) || Separate(d, c))
    ensures NoSharedByte(c, r, d, q)
  {
    InsideMapping(c, r);
    InsideMapping(d, q);
  }

  /** Two outstanding ranges never share a byte, whatever classes they are from. */
  lemma BytesAreDisjoint(entries: nat, run: seq<Action>, i: nat, j: nat, k: nat, l: nat)
    requires var s := Exec(Init(entries), run);
             && i < j < |s.out| && k < |s.t| && l < |s.t|
             && Keyed(s.t[k], s.out[i].slot, s.out[i].node) && Keyed(s.t[l], s.out[j].slot, s.out[j].node)
    ensures var s := Exec(Init(entries), run); NoSharedByte(s.t[k].value, s.out[i], s.t[l].value, s.out[j])
  {
    Reachable(entries, run);
    var s := Exec(Init(entries), run);
    var c, d, r, q := s.t[k].value, s.t[l].value, s.out[i], s.out[j];
    assert Counted(s.out, c) && Counted(s.out, d);
    if k == l { SameClassBytes(c, r, q); } else { OtherClassBytes(c, r, d, q); }
  }

  // ---- the object ---------------------------------------------------------------------------------------------------

  class ArenaTable {
    const cls: array<Option<Class>>

    constructor (entries: nat)
      ensures cls[..] == Init(entries).t && fresh(cls)
    {
      cls := new Option<Class>[entries](_ => None);
    }

    /** Finds the class or maps it into the first free entry; -1 when neither is possible. */
    method ClassForLocked(slot: nat, node: int, m: Option<Mapping>) returns (k: int)
      modifies cls
      ensures var (t, j) := ClassFor(old(cls[..]), slot, node, m);
              cls[..] == t && k == if j < cls.Length then j else -1
    {
      var free := -1;
      for i := 0 to cls.Length
        invariant cls[..] == old(cls[..])
        invariant Find(cls[..], slot, node, 0) == Find(cls[..], slot, node, i)
        invariant if free < 0 then FindFree(cls[..], 0) == FindFree(cls[..], i)
                  else free < i && FindFree(cls[..], 0) == free
      {
        if cls[i].Some? {
          if cls[i].value.slot == slot && cls[i].value.node == node { return i; }
        } else if free < 0 {
          free := i;
        }
      }
      if free < 0 || m.None? { return -1; }
      cls[free] := Some(Class(m.value.base, slot, m.value.cap, 0, 0, node));
      k := free;
    }

    method AllocSlots(n: nat, slot: nat, node: int, m: Option<Mapping>) returns (r: Option<(nat, int)>)
      modifies cls
      ensures (cls[..], r) == Alloc(old(cls[..]), n, slot, node, m)
    {
      r := None;
      var k := ClassForLocked(slot, node, m);
      if k >= 0 && cls[k].value.next + n <= cls[k].value.cap {
        var c := cls[k].value;
        r := Some((c.next, c.base));
        cls[k] := Some(c.(next := c.next + n, live := c.live + n));
      }
    }

    method FreeSlots(start: nat, n: nat, slot: nat, node: int)
      modifies cls
      ensures cls[..] == Free(old(cls[..]), start, n, slot, node)
    {
      for i := 0 to cls.Length
        invariant cls[..] == old(cls[..])
        invariant Find(cls[..], slot, node, 0) == Find(cls[..], slot, node, i)
      {
        if cls[i].Some? && cls[i].value.slot == slot && cls[i].value.node == node {
          var c := cls[i].value;
          if c.live >= n { c := c.(live := c.live - n); }
          if c.live == 0 {
            c := c.(next := 0);
          } else if start + n == c.next {
            c := c.(next := start);
          }
          cls[i] := Some(c);
          return;
        }
      }
    }
  }
}
