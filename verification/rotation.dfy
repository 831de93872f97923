/**
 * The round-robin rotation scheduler: one shared cursor into the catalog,
 * read and advanced as one atomic step by every scenario that starts.
 */
module Rotation {

  /** One advance of a cursor over `n` entries: the next position, wrapping to 0 after the last. */
  function Advance(position: nat, n: nat): (next: nat)
    requires position < n
    ensures next < n
    ensures next == (position + 1) % n
  {
    if position + 1 < n then position + 1
    else
      ModUnique(position + 1, n, 1, 0);
      0
  }

  /**
   * The profiles handed out by `count` consecutive calls when the cursor
   * starts at `start`: each call reads the entry at the cursor, then moves
   * the cursor one place on.
   */
  function Schedule<T>(catalog: seq<T>, start: nat, count: nat): (handed: seq<T>)
    requires start < |catalog|
    ensures |handed| == count
    decreases count
  {
    if count == 0 then []
    else [catalog[start]] + Schedule(catalog, Advance(start, |catalog|), count - 1)
  }

  /** Advancing the cursor once and then `j` more places is advancing it `j + 1` places. */
  lemma AdvanceThenMove(start: nat, j: nat, n: nat)
    requires start < n
    ensures (Advance(start, n) + j) % n == (start + 1 + j) % n
  {
    if start + 1 == n {
      ModShift(j, n);
      assert start + 1 + j == n + j;
    }
  }

  /** Euclidean division is unique: a remainder below `n` fixes quotient and remainder. */
  lemma ModUnique(x: int, n: int, q: int, r: int)
    requires 0 < n && 0 <= r < n && x == q * n + r
    ensures x % n == r && x / n == q
  {
    var q', r' := x / n, x % n;
    assert x == q' * n + r';
    assert (q - q') * n == r' - r;
    if q > q' {
      assert (q - q') * n >= n by { MulAtLeast(q - q', n); }
    } else if q < q' {
      assert (q' - q) * n >= n by { MulAtLeast(q' - q, n); }
    }
  }

  lemma MulAtLeast(a: int, n: int)
    requires 1 <= a && 0 < n
    ensures a * n >= n
  {}

  lemma ModShift(j: nat, n: nat)
    requires 0 < n
    ensures (n + j) % n == j % n
  {
    ModUnique(n + j, n, j / n + 1, j % n);
  }

  /** Call `j` of a run hands out the entry `j` places after the starting cursor. */
  lemma {:induction false} ScheduleAt<T>(catalog: seq<T>, start: nat, count: nat, j: nat)
    requires start < |catalog| && j < count
    ensures Schedule(catalog, start, count)[j] == catalog[(start + j) % |catalog|]
    decreases count
  {
    var n := |catalog|;
    var next := Advance(start, n);
    var rest := Schedule(catalog, next, count - 1);
    assert Schedule(catalog, start, count) == [catalog[start]] + rest;
    if j == 0 {
      ModUnique(start, n, 0, start);
    } else {
      ScheduleAt(catalog, next, count - 1, j - 1);
      AdvanceThenMove(start, j - 1, n);
      assert start + 1 + (j - 1) == start + j;
    }
  }

  /** One more call appends the entry at the cursor's position after `count` calls. */
  lemma ScheduleExtend<T>(catalog: seq<T>, start: nat, count: nat)
    requires start < |catalog|
    ensures Schedule(catalog, start, count + 1)
         == Schedule(catalog, start, count) + [catalog[(start + count) % |catalog|]]
  {
    var longer, shorter := Schedule(catalog, start, count + 1), Schedule(catalog, start, count);
    forall j | 0 <= j < count + 1
      ensures longer[j] == (shorter + [catalog[(start + count) % |catalog|]])[j]
    {
      ScheduleAt(catalog, start, count + 1, j);
      if j < count { ScheduleAt(catalog, start, count, j); }
    }
  }

  /**
   * A run of `|catalog|` calls from any cursor position hands out the
   * catalog rotated to that position: every profile exactly once, in
   * catalog order, wrapping after the last.
   */
  lemma FullRound<T>(catalog: seq<T>, start: nat)
    requires start < |catalog|
    ensures Schedule(catalog, start, |catalog|) == catalog[start..] + catalog[..start]
    ensures multiset(Schedule(catalog, start, |catalog|)) == multiset(catalog)
  {
    var n := |catalog|;
    var round, rotated := Schedule(catalog, start, n), catalog[start..] + catalog[..start];
    assert |rotated| == n;
    forall j | 0 <= j < n
      ensures round[j] == rotated[j]
    {
      ScheduleAt(catalog, start, n, j);
      if start + j < n {
        ModUnique(start + j, n, 0, start + j);
        assert rotated[j] == catalog[start..][j];
      } else {
        ModUnique(start + j, n, 1, start + j - n);
        assert rotated[j] == catalog[..start][j - (n - start)];
      }
    }
    assert round == rotated;
    assert catalog == catalog[..start] + catalog[start..];
  }

  /** Starting at 0, the first `|catalog|` calls hand out the catalog itself, in order. */
  lemma FirstRoundInOrder<T>(catalog: seq<T>)
    requires 0 < |catalog|
    ensures Schedule(catalog, 0, |catalog|) == catalog
  {
    FullRound(catalog, 0);
    assert catalog[0..] + catalog[..0] == catalog;
  }

  /** The calls of a run after its first `skip` are a run from the advanced cursor. */
  lemma {:induction false} ScheduleSuffix<T>(catalog: seq<T>, start: nat, skip: nat, count: nat)
    requires start < |catalog|
    ensures Schedule(catalog, start, skip + count)[skip..]
         == Schedule(catalog, (start + skip) % |catalog|, count)
    decreases skip
  {
    var n := |catalog|;
    if skip == 0 {
      ModUnique(start, n, 0, start);
    } else {
      var next := Advance(start, n);
      var rest := Schedule(catalog, next, skip - 1 + count);
      assert Schedule(catalog, start, skip + count) == [catalog[start]] + rest;
      assert ([catalog[start]] + rest)[skip..] == rest[skip - 1..];
      ScheduleSuffix(catalog, next, skip - 1, count);
      AdvanceThenMove(start, skip - 1, n);
      assert start + 1 + (skip - 1) == start + skip;
    }
  }

  /**
   * From a cursor that started at 0, ANY window of `|catalog|` consecutive
   * calls hands out each profile exactly once, and the call after a full
   * window repeats the window's first profile.
   */
  lemma EveryWindowIsARound<T>(catalog: seq<T>, before: nat)
    requires 0 < |catalog|
    ensures var n := |catalog|;
      var window := Schedule(catalog, 0, before + n)[before..];
      && window == catalog[before % n..] + catalog[..before % n]
      && multiset(window) == multiset(catalog)
    ensures Schedule(catalog, 0, before + |catalog| + 1)[before + |catalog|]
         == Schedule(catalog, 0, before + 1)[before]
  {
    var n := |catalog|;
    ScheduleSuffix(catalog, 0, before, n);
    FullRound(catalog, before % n);
    ScheduleAt(catalog, 0, before + n + 1, before + n);
    ScheduleAt(catalog, 0, before + 1, before);
    ModShift(before, n);
  }

  /**
   * The shared cursor. `index` is the only state that changes; `handedOut`
   * is the history of profiles returned so far, kept for the proofs.
   */
  class RotationCursor<T> {
    const catalog: seq<T>
    var index: int
    ghost var handedOut: seq<T>

    /**
     * The cursor is inside the catalog, and everything handed out so far
     * is the round-robin schedule from position 0.
     */
    ghost predicate Valid()
      reads this
    {
      && 0 < |catalog|
      && 0 <= index < |catalog|
      && index == |handedOut| % |catalog|
      && handedOut == Schedule(catalog, 0, |handedOut|)
    }

    constructor (catalog: seq<T>)
      requires 0 < |catalog|
      ensures Valid()
      ensures this.catalog == catalog && index == 0 && handedOut == []
    {
      this.catalog := catalog;
      index := 0;
      handedOut := [];
    }

    /** Read the profile at the cursor and advance the cursor, as one atomic step. */
    method Next() returns (selected: T)
      requires Valid()
      modifies this
      ensures Valid()
      ensures selected == catalog[old(index)]
      ensures index == (old(index) + 1) % |catalog|
      ensures handedOut == old(handedOut) + [selected]
    {
      selected := catalog[index];
      index := (index + 1) % |catalog|;
      assert index == Advance(old(index), |catalog|);
      ScheduleExtend(catalog, 0, |handedOut|);
      ModSucc(|handedOut|, |catalog|);
      handedOut := handedOut + [selected];
    }
  }

  lemma ModSucc(k: nat, n: nat)
    requires 0 < n
    ensures (k % n + 1) % n == (k + 1) % n
  {
    if k % n + 1 < n {
      ModUnique(k + 1, n, k / n, k % n + 1);
    } else {
      ModUnique(k + 1, n, k / n + 1, 0);
    }
  }
}
