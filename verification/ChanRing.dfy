/**
 The channel's ring: an array with a head, a tail and a length, walked by the collector's
 hooks without the lock.
 */
module ChanRing {
  import opened Options

  /** (x) % cap for an index that wrapped at most once. */
  lemma WrapOnce(x: nat, cap: nat)
    requires x < cap + cap
    ensures x % cap == if x < cap then x else x - cap
  {
  }

  class Ring<T> {
    const buf: array<Option<T>>
    var head: nat
    var tail: nat
    var len: nat

    /** The slot of the i-th buffered value. */
    ghost function Slot(i: nat): nat
      reads this
    {
      if head + i < buf.Length then head + i else head + i - buf.Length
    }

    /** Indices in range, the tail one past the last value, and a slot is non-NULL exactly when
        it holds a buffered value. */
    ghost predicate Valid()
      reads this, buf
    {
      && len <= buf.Length
      && (if buf.Length == 0 then head == 0 && tail == 0
          else head < buf.Length && tail == if head + len < buf.Length then head + len else head + len - buf.Length)
      && (forall i :: 0 <= i < buf.Length ==>
            (buf[i].Some? <==> (if i >= head then i - head else i - head + buf.Length) < len))
    }

    ghost function Contents(): (s: seq<T>)
      requires Valid()
      reads this, buf
      ensures |s| == len
    {
      seq(len, i requires 0 <= i < len reads this, buf requires Valid() => buf[Slot(i)].value)
    }

    constructor (cap: nat)
      ensures Valid() && buf.Length == cap && Contents() == [] && fresh(buf)
    {
      buf := new Option<T>[cap](_ => None);
      head, tail, len := 0, 0, 0;
    }

    method Push(v: T)
      requires Valid() && len < buf.Length
      modifies this, buf
      ensures Valid() && Contents() == old(Contents()) + [v]
    {
      WrapOnce(tail + 1, buf.Length);
      buf[tail] := Some(v);
      tail := (tail + 1) % buf.Length;
      len := len + 1;
    }

    method Pop() returns (v: T)
      requires Valid() && len > 0
      modifies this, buf
      ensures Valid() && old(Contents()) == [v] + Contents()
    {
      WrapOnce(head + 1, buf.Length);
      v := buf[head].value;
      buf[head] := None;
      head := (head + 1) % buf.Length;
      len := len - 1;
    }

    /** The traverse hook visits exactly the buffered values, oldest first. */
    method Traverse() returns (visited: seq<T>)
      requires Valid()
      ensures visited == Contents()
    {
      visited := [];
      if buf.Length <= 0 { return; }
      for i := 0 to len
        invariant visited == Contents()[..i]
      {
        WrapOnce(head + i, buf.Length);
        visited := visited + [buf[(head + i) % buf.Length].value];
      }
    }

    /** The clear hook drops each buffered value once, oldest first, and leaves an empty ring
        whose every slot is NULL. */
    method Clear() returns (dropped: seq<T>)
      requires Valid()
      modifies this, buf
      ensures Valid() && Contents() == [] && dropped == old(Contents())
      ensures tail == head && forall i :: 0 <= i < buf.Length ==> buf[i].None?
    {
      dropped := [];
      if buf.Length <= 0 { return; }
      while len > 0
        invariant Valid() && dropped + Contents() == old(Contents())
        decreases len
      {
        ghost var before := Contents();
        var v := Pop();
        assert dropped + before == (dropped + [v]) + Contents();
        dropped := dropped + [v];
      }
      tail := head;
    }
  }
}
