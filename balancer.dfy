/**
 * The round-robin address pool of the client (balancer.go).
 *
 * The pool holds the current upstream list and a cursor. `Next` resets the
 * cursor to 0 when it has run past the end of the list, returns the address
 * there and then always advances the cursor by one; a refresh replaces the
 * list wholesale and leaves the cursor alone.
 */
module RoundRobin {
  import opened Wrappers
  import opened RpcErrors

  /** The index `Next` reads with cursor `cursor` on a list of `count` addresses. */
  function IndexFor(cursor: nat, count: nat): (i: nat)
    requires count > 0
    ensures i < count
    ensures cursor < count ==> i == cursor
    ensures cursor >= count ==> i == 0
  {
    if cursor > count - 1 then 0 else cursor
  }

  /** The cursor after `k` successive `Next` calls on a list of `count` addresses. */
  function CursorAfter(cursor: nat, count: nat, k: nat): nat
    requires count > 0
  {
    if k == 0 then cursor else IndexFor(CursorAfter(cursor, count, k - 1), count) + 1
  }

  /** The addresses that `k` successive `Next` calls return, in call order. */
  function Schedule(cursor: nat, addresses: seq<string>, k: nat): (s: seq<string>)
    requires |addresses| > 0
    ensures |s| == k
  {
    if k == 0 then []
    else Schedule(cursor, addresses, k - 1) + [addresses[IndexFor(CursorAfter(cursor, |addresses|, k - 1), |addresses|)]]
  }

  class Balancer {
    var addresses: seq<string>
    var nextAddress: nat

    /**
     * `newBalancer`: one synchronous discovery; `discovered` is its outcome
     * (None when `Get` failed, which leaves the pool empty).
     */
    constructor (discovered: Option<seq<string>>)
      ensures addresses == (if discovered.Some? then discovered.value else [])
      ensures nextAddress == 0
    {
      addresses := if discovered.Some? then discovered.value else [];
      nextAddress := 0;
    }

    /** `len`: the current number of addresses. */
    method Len() returns (n: nat)
      ensures n == |addresses|
    {
      n := |addresses|;
    }

    /** `next`: the address under the (possibly reset) cursor; the cursor always advances. */
    method Next() returns (r: Result<string, Failure>)
      modifies this`nextAddress
      ensures addresses == old(addresses)
      ensures |addresses| == 0 ==> r == Err(NoLiveUpstreams) && nextAddress == old(nextAddress) + 1
      ensures |addresses| > 0 ==>
        var i := IndexFor(old(nextAddress), |addresses|);
        r == Ok(addresses[i]) && nextAddress == i + 1
    {
      if |addresses| == 0 {
        r := Err(NoLiveUpstreams);
      } else {
        if nextAddress > |addresses| - 1 {
          nextAddress := 0;
        }
        r := Ok(addresses[nextAddress]);
      }
      // the deferred increment runs on both paths
      nextAddress := nextAddress + 1;
    }

    /**
     * One iteration of `watch`: `discovered` is the outcome of `Get`. A success
     * replaces the list wholesale, a failure keeps it; the cursor is untouched.
     */
    method Refresh(discovered: Option<seq<string>>)
      modifies this`addresses
      ensures addresses == (if discovered.Some? then discovered.value else old(addresses))
      ensures nextAddress == old(nextAddress)
    {
      if discovered.Some? {
        addresses := discovered.value;
      }
    }
  }

  /**
   * Within two laps the cursor climbs from the (reset) start up to `count`,
   * then restarts from 1.
   */
  lemma {:induction false} CursorWalk(cursor: nat, count: nat, k: nat)
    requires count > 0
    requires 1 <= k <= 2 * count - IndexFor(cursor, count)
    ensures var p := IndexFor(cursor, count);
      CursorAfter(cursor, count, k) == if k <= count - p then p + k else p + k - count
  {
    if k > 1 {
      CursorWalk(cursor, count, k - 1);
    }
  }

  /** The index read by the `j`-th call (counting from 0), within two laps. */
  lemma {:induction false} IndexAt(cursor: nat, count: nat, j: nat)
    requires count > 0 && IndexFor(cursor, count) + j < 2 * count
    ensures var p := IndexFor(cursor, count);
      IndexFor(CursorAfter(cursor, count, j), count) == if p + j < count then p + j else p + j - count
  {
    if j > 0 {
      CursorWalk(cursor, count, j);
    }
  }

  /**
   * Successive `Next` calls walk the list in order from the start index (the
   * cursor, or 0 if the cursor is at or past the end) and wrap to the front:
   * the `j`-th call returns the address `j` places after the start, cyclically.
   */
  lemma {:induction false} ScheduleIsRotation(cursor: nat, addresses: seq<string>, k: nat, j: nat)
    requires |addresses| > 0 && j < k
    requires IndexFor(cursor, |addresses|) + j < 2 * |addresses|
    ensures var n, p := |addresses|, IndexFor(cursor, |addresses|);
      Schedule(cursor, addresses, k)[j] == addresses[if p + j < n then p + j else p + j - n]
  {
    if j < k - 1 {
      ScheduleIsRotation(cursor, addresses, k - 1, j);
    } else {
      IndexAt(cursor, |addresses|, j);
    }
  }

  /** The first `i` of `k` calls are the `i` calls made alone. */
  lemma {:induction false} SchedulePrefix(cursor: nat, addresses: seq<string>, i: nat, k: nat)
    requires |addresses| > 0 && i <= k
    ensures Schedule(cursor, addresses, k)[..i] == Schedule(cursor, addresses, i)
  {
    if i < k {
      SchedulePrefix(cursor, addresses, i, k - 1);
      assert Schedule(cursor, addresses, k)[..k - 1] == Schedule(cursor, addresses, k - 1);
    }
  }

  /** The `i`-th of `k` calls reads the index under the cursor left by the `i` calls before it. */
  lemma ScheduleAt(cursor: nat, addresses: seq<string>, i: nat, k: nat)
    requires |addresses| > 0 && i < k
    ensures Schedule(cursor, addresses, k)[i] ==
      addresses[IndexFor(CursorAfter(cursor, |addresses|, i), |addresses|)]
  {
    SchedulePrefix(cursor, addresses, i + 1, k);
    assert Schedule(cursor, addresses, k)[i] == Schedule(cursor, addresses, i + 1)[i];
  }

  /**
   * From a fresh pool of N addresses, N calls return the list in order and
   * the next N repeat it.
   */
  lemma FreshPoolOrder(addresses: seq<string>)
    requires |addresses| > 0
    ensures Schedule(0, addresses, |addresses|) == addresses
    ensures Schedule(0, addresses, 2 * |addresses|) == addresses + addresses
  {
    var n := |addresses|;
    var twice := addresses + addresses;
    var s := Schedule(0, addresses, 2 * n);
    forall j | 0 <= j < 2 * n
      ensures s[j] == twice[j]
    {
      ScheduleIsRotation(0, addresses, 2 * n, j);
    }
    assert s == twice;
    SchedulePrefix(0, addresses, n, 2 * n);
    assert twice[..n] == addresses;
  }

  /**
   * N calls from any cursor return the N-address list rotated to start at the
   * index the first call reads.
   */
  lemma OneLapIsRotation(cursor: nat, addresses: seq<string>)
    requires |addresses| > 0
    ensures var p := IndexFor(cursor, |addresses|);
      Schedule(cursor, addresses, |addresses|) == addresses[p..] + addresses[..p]
  {
    var n, p := |addresses|, IndexFor(cursor, |addresses|);
    var rotated := addresses[p..] + addresses[..p];
    var s := Schedule(cursor, addresses, n);
    forall j | 0 <= j < n
      ensures s[j] == rotated[j]
    {
      ScheduleIsRotation(cursor, addresses, n, j);
      if p + j < n {
        assert rotated[j] == addresses[p..][j];
      } else {
        assert rotated[j] == addresses[..p][j - (n - p)];
      }
    }
  }

  /** So N calls from any cursor visit every position exactly once. */
  lemma OneLapCoversPool(cursor: nat, addresses: seq<string>)
    requires |addresses| > 0
    ensures multiset(Schedule(cursor, addresses, |addresses|)) == multiset(addresses)
  {
    var p := IndexFor(cursor, |addresses|);
    OneLapIsRotation(cursor, addresses);
    assert addresses == addresses[..p] + addresses[p..];
  }

  /**
   * After a refresh shrinks the list below the cursor, the next call returns
   * the first address, which is not in general the one at the cursor modulo
   * the length: with cursor 3 on ["a", "b"] it is "a", not "b".
   */
  lemma ShrunkPoolRestartsAtFront(cursor: nat, addresses: seq<string>)
    requires 0 < |addresses| <= cursor
    ensures Schedule(cursor, addresses, 1) == [addresses[0]]
    ensures Schedule(3, ["a", "b"], 1) != [["a", "b"][3 % 2]]
  {
    assert Schedule(3, ["a", "b"], 1) == [["a", "b"][IndexFor(3, 2)]];
  }

  /**
   * While the list does not shrink below the cursor, resetting to 0 and
   * taking the cursor modulo the length agree, and the cursor stays within
   * the list length.
   */
  lemma {:induction false} ResetAgreesWithModulo(cursor: nat, count: nat, k: nat)
    requires 0 < count && cursor <= count
    ensures CursorAfter(cursor, count, k) <= count
    ensures IndexFor(CursorAfter(cursor, count, k), count) == CursorAfter(cursor, count, k) % count
  {
    if k > 0 {
      ResetAgreesWithModulo(cursor, count, k - 1);
    }
    var c := CursorAfter(cursor, count, k);
    if c == count {
      assert c % count == 0;
    }
  }
}
