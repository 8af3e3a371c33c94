/** The ring buffer of recent output lines, against the whole history of what was appended. */
module Ring {

  /** The last n of a history. */
  function Suffix(history: seq<string>, n: nat): (s: seq<string>)
    requires n <= |history|
    ensures |s| == n
  {
    history[|history| - n..]
  }

  function Min(a: int, b: int): int {
    if a < b then a else b
  }

  lemma Wrapped(x: int, capacity: int)
    requires 0 <= x < 2 * capacity
    ensures x % capacity == if x < capacity then x else x - capacity
  {
    if x >= capacity {
      assert x == capacity + (x - capacity);
    }
  }

  /** Where the i-th line after start is. */
  function Slot(start: nat, i: nat, capacity: nat): (slot: nat)
    requires start < capacity && i <= capacity
    ensures slot == if start + i < capacity then start + i else start + i - capacity
  {
    Wrapped(start + i, capacity);
    (start + i) % capacity
  }

  class RingBuffer {
    const lines: array<string>
    var start: nat
    var count: nat
    // Everything ever appended.
    ghost var history: seq<string>

    /** The count buffered lines, from start around the end, are the last of the history. */
    ghost predicate Valid()
      reads this, lines
    {
      && lines.Length > 0 && start < lines.Length
      && count == Min(|history|, lines.Length)
      && forall i :: 0 <= i < count ==> lines[Slot(start, i, lines.Length)] == history[|history| - count + i]
    }

    constructor (capacity: nat)
      requires capacity > 0
      ensures Valid() && history == [] && lines.Length == capacity && fresh(lines)
    {
      lines := new string[capacity](_ => "");
      start, count, history := 0, 0, [];
    }

    method Append(line: string)
      requires Valid()
      modifies this, lines
      ensures Valid() && history == old(history) + [line]
    {
      var n := lines.Length;
      history := history + [line];
      if count < n {
        Wrapped(start + count, n);
        assert (start + count) % n == Slot(start, count, n);
        lines[(start + count) % n] := line;
        count := count + 1;
        return;
      }
      lines[start] := line;
      Wrapped(start + 1, n);
      start := (start + 1) % n;
      forall i | 0 <= i < count
        ensures lines[Slot(start, i, n)] == history[|history| - count + i]
      {
        if i < count - 1 {
          assert Slot(start, i, n) == Slot(old(start), i + 1, n) != old(start);
          assert old(lines[Slot(start, i + 1, n)]) == old(history)[|old(history)| - count + (i + 1)];
        }
      }
    }

    /** The last n lines of the whole history, as far as they are buffered; all that are for n <= 0. */
    method Last(n: int) returns (out: array<string>)
      requires Valid()
      ensures fresh(out)
      ensures var all := Min(|history|, lines.Length); out[..] == Suffix(history, if n <= 0 then all else Min(n, all))
    {
      var k := n;
      if n <= 0 || n > count {
        k := count;
      }
      out := new string[k](_ => "");
      for i := 0 to k
        invariant forall j :: 0 <= j < i ==> out[j] == history[|history| - k + j]
      {
        var at := Slot(start, count - k + i, lines.Length);
        assert lines[at] == history[|history| - count + (count - k + i)];
        Wrapped(start + count - k + i, lines.Length);
        out[i] := lines[(start + count - k + i) % lines.Length];
      }
    }
  }
}
