/**
 The fixed-capacity ring of slot indices. Elements are stored as `uint8_t`, so an index is
 truncated modulo 256 on the way in and again when it is compared by `Remove`.
 */
module CircularBuffers {
  import opened Numbers

  // Every element of `s` other than `x`, in order.
  function Without<T(==)>(s: seq<T>, x: T): (r: seq<T>)
    ensures |r| <= |s|
  {
    if s == [] then []
    else if s[0] == x then Without(s[1..], x)
    else [s[0]] + Without(s[1..], x)
  }

  lemma {:induction false} WithoutMembers<T(!new)>(s: seq<T>, x: T)
    ensures forall y :: y in Without(s, x) <==> y in s && y != x
    ensures forall k :: 0 <= k < |Without(s, x)| ==> Without(s, x)[k] in s
  {
    if s != [] {
      WithoutMembers(s[1..], x);
    }
  }

  lemma {:induction false} WithoutSnoc<T>(s: seq<T>, e: T, x: T)
    ensures Without(s + [e], x) == Without(s, x) + if e == x then [] else [e]
  {
    if s == [] {
      assert s + [e] == [e] && [e][1..] == [];
    } else {
      assert (s + [e])[1..] == s[1..] + [e];
      WithoutSnoc(s[1..], e, x);
    }
  }

  lemma WithoutPrefix(s: seq<nat>, i: nat, x: nat)
    requires i < |s|
    ensures Without<nat>(s[..i + 1], x) == Without<nat>(s[..i], x) + if s[i] == x then [] else [s[i]]
  {
    assert s[..i + 1] == s[..i] + [s[i]];
    WithoutSnoc<nat>(s[..i], s[i], x);
  }

  lemma {:induction false} WithoutAbsent<T>(s: seq<T>, x: T)
    requires x !in s
    ensures Without(s, x) == s
  {
    if s != [] {
      WithoutAbsent(s[1..], x);
    }
  }

  ghost predicate Distinct<T>(s: seq<T>) {
    forall i, j :: 0 <= i < j < |s| ==> s[i] != s[j]
  }

  lemma DistinctTail<T>(s: seq<T>)
    requires Distinct(s) && s != []
    ensures Distinct(s[1..]) && s[0] !in s[1..]
  {
  }

  lemma {:induction false} WithoutDistinct<T(!new)>(s: seq<T>, x: T)
    requires Distinct(s)
    ensures Distinct(Without(s, x))
    ensures |Without(s, x)| == if x in s then |s| - 1 else |s|
  {
    if s != [] {
      DistinctTail(s);
      WithoutDistinct(s[1..], x);
      WithoutMembers(s[1..], x);
    }
  }

  // The storage position `i` places after `head` in a ring of `n` places.
  function PlaceAt(head: nat, i: nat, n: nat): (p: nat)
    requires head < n && i <= n
    ensures p < n
  {
    if head + i < n then head + i else head + i - n
  }

  // The `count` elements read from position `head` of a ring of storage `b`.
  function Window(b: seq<nat>, head: nat, count: nat): (s: seq<nat>)
    requires head < |b| && count <= |b|
    ensures |s| == count
  {
    seq(count, i requires 0 <= i < count => b[PlaceAt(head, i, |b|)])
  }

  lemma WindowFromStart(b: seq<nat>, count: nat)
    requires 0 < |b| && count <= |b|
    ensures Window(b, 0, count) == b[..count]
  {
  }

  class StaticCircularBuffer {
    const capacity: nat
    const buf: array<nat>
    var head: nat
    var tail: nat
    var count: nat

    ghost predicate Valid()
      reads this, buf
    {
      && 0 < capacity == buf.Length
      && head < capacity
      && count <= capacity
      && tail == PlaceAt(head, count, capacity)
      && forall i :: 0 <= i < capacity ==> buf[i] < 256
    }

    ghost function Contents(): (s: seq<nat>)
      requires Valid()
      reads this, buf
      ensures |s| == count
    {
      Window(buf[..], head, count)
    }

    constructor (n: nat)
      requires 0 < n
      ensures Valid() && fresh(buf) && capacity == n && Contents() == []
    {
      capacity := n;
      buf := new nat[n](_ => 0);
      head, tail, count := 0, 0, 0;
    }

    predicate IsEmpty()
      reads this
    {
      count == 0
    }

    predicate IsFull()
      reads this
    {
      count == capacity
    }

    method Push(idx: nat) returns (ok: bool)
      requires Valid()
      modifies this, buf
      ensures Valid()
      ensures ok <==> |old(Contents())| < capacity
      ensures Contents() == old(Contents()) + if ok then [idx % 256] else []
    {
      if IsFull() {
        return false;
      }
      ghost var before := Contents();
      WrapOnce(tail, 1, capacity);
      buf[tail] := idx % 256;
      tail := (tail + 1) % capacity;
      count := count + 1;
      assert Contents() == before + [idx % 256];
      return true;
    }

    method Pop() returns (ok: bool, idx: nat)
      requires Valid()
      modifies this
      ensures Valid()
      ensures ok <==> old(Contents()) != []
      ensures ok ==> idx == old(Contents())[0] && Contents() == old(Contents())[1..]
      ensures !ok ==> Contents() == []
    {
      if IsEmpty() {
        return false, 0;
      }
      ghost var before := Contents();
      WrapOnce(head, 1, capacity);
      idx := buf[head];
      head := (head + 1) % capacity;
      count := count - 1;
      assert Contents() == before[1..];
      return true, idx;
    }

    method ElementAt(i: nat) returns (element: nat)
      requires Valid() && i < count
      ensures element == Contents()[i] && element < 256
    {
      WrapOnce(head, i, capacity);
      element := buf[(head + i) % capacity];
    }

    // The elements other than `idx`, copied to the front of a new array.
    method CopyOthers(idx: nat) returns (temp: array<nat>, newCount: nat)
      requires Valid()
      ensures fresh(temp) && temp.Length == capacity && newCount <= count
      ensures temp[..newCount] == Without<nat>(Contents(), idx % 256)
      ensures forall k :: 0 <= k < capacity ==> temp[k] < 256
    {
      temp := new nat[capacity](_ => 0);
      newCount := 0;
      for i := 0 to count
        invariant newCount <= i
        invariant forall k :: 0 <= k < capacity ==> temp[k] < 256
        invariant temp[..newCount] == Without<nat>(Contents()[..i], idx % 256)
      {
        WithoutPrefix(Contents(), i, idx % 256);
        var element := ElementAt(i);
        if element != idx % 256 {
          temp[newCount] := element;
          newCount := newCount + 1;
        }
      }
      assert Contents()[..count] == Contents();
    }

    // Copies the others to a temporary array and restarts the ring at position 0.
    method Remove(idx: nat)
      requires Valid()
      modifies this, buf
      ensures Valid()
      ensures Contents() == Without<nat>(old(Contents()), idx % 256)
      ensures head == 0
    {
      var temp, newCount := CopyOthers(idx);
      forall k | 0 <= k < capacity {
        buf[k] := temp[k];
      }
      assert buf[..] == temp[..];
      WrapOnce(0, newCount, capacity);
      WindowFromStart(temp[..], newCount);
      head, tail, count := 0, newCount % capacity, newCount;
    }
  }

  // The modulo arithmetic of the source lands on `PlaceAt` for every wrap position.
  lemma WrapOnce(head: nat, i: nat, n: nat)
    requires head < n && i <= n
    ensures (head + i) % n == PlaceAt(head, i, n)
  {
    if head + i < n {
      UniqueQuotient(head + i, n, 0, head + i);
    } else {
      UniqueQuotient(head + i, n, 1, head + i - n);
    }
  }
}
