/** The amount of a booking is the sum of the prices of its seats. */
module SagaPrices {
  import opened IntSets
  import opened Inventory
  import opened BookingSaga

  lemma {:induction false} TotalOfBoth(seats: SeatTable, schedule: int, a: seq<int>, b: seq<int>)
    ensures TotalPrice(seats, schedule, a + b) == TotalPrice(seats, schedule, a) + TotalPrice(seats, schedule, b)
    decreases |b|
  {
    if b == [] {
      assert a + b == a;
    } else {
      assert (a + b)[..|a + b| - 1] == a + b[..|b| - 1];
      TotalOfBoth(seats, schedule, a, b[..|b| - 1]);
    }
  }

  lemma TotalOfOne(seats: SeatTable, schedule: int, x: int)
    ensures TotalPrice(seats, schedule, []) == 0
    ensures TotalPrice(seats, schedule, [x]) == if SeatKey(schedule, x) in seats then seats[SeatKey(schedule, x)].price else 0
  {
    assert [x][..0] == [];
  }

  lemma TakenOut(ids: seq<int>, n: nat)
    requires n < |ids|
    ensures multiset(ids) - multiset{ids[n]} == multiset(ids[..n] + ids[n + 1..])
  {
    assert ids == ids[..n] + [ids[n]] + ids[n + 1..];
  }

  lemma TotalWithout(seats: SeatTable, schedule: int, ids: seq<int>, n: nat)
    requires n < |ids|
    ensures TotalPrice(seats, schedule, ids) == TotalPrice(seats, schedule, [ids[n]]) + TotalPrice(seats, schedule, ids[..n] + ids[n + 1..])
  {
    var (a, b) := (ids[..n], ids[n + 1..]);
    assert ids == a + ([ids[n]] + b);
    TotalOfBoth(seats, schedule, a, [ids[n]] + b);
    TotalOfBoth(seats, schedule, [ids[n]], b);
    TotalOfBoth(seats, schedule, a, b);
  }

  lemma SameElement(a: seq<int>, b: seq<int>) returns (n: nat)
    requires multiset(a) == multiset(b) && a != []
    ensures n < |b| && b[n] == a[0] && multiset(a[..0] + a[1..]) == multiset(b[..n] + b[n + 1..])
  {
    assert a[0] in multiset(a);
    assert a[0] in b;
    n :| 0 <= n < |b| && b[n] == a[0];
    TakenOut(a, 0);
    TakenOut(b, n);
  }

  /** The order in which the seats are requested does not matter. */
  lemma {:induction false} TotalIgnoresOrder(seats: SeatTable, schedule: int, a: seq<int>, b: seq<int>)
    requires multiset(a) == multiset(b)
    ensures TotalPrice(seats, schedule, a) == TotalPrice(seats, schedule, b)
    decreases |a|
  {
    assert |a| == |multiset(a)| == |b|;
    if a != [] {
      var n := SameElement(a, b);
      TotalIgnoresOrder(seats, schedule, a[..0] + a[1..], b[..n] + b[n + 1..]);
      TotalWithout(seats, schedule, a, 0);
      TotalWithout(seats, schedule, b, n);
    }
  }

  lemma {:induction false} OtherPriceIsNoMatter(seats: SeatTable, schedule: int, ids: seq<int>, x: int, row: SeatRow)
    requires x !in ids
    ensures TotalPrice(seats[SeatKey(schedule, x) := row], schedule, ids) == TotalPrice(seats, schedule, ids)
    decreases |ids|
  {
    if ids != [] {
      OtherPriceIsNoMatter(seats, schedule, ids[..|ids| - 1], x, row);
    }
  }

  /** Each requested seat is charged once: raising its price by `d` raises the amount by `d`. */
  lemma RaisedPriceRaisesTotal(seats: SeatTable, schedule: int, ids: seq<int>, x: int, d: int)
    requires Distinct(ids) && x in ids && SeatKey(schedule, x) in seats
    ensures var key := SeatKey(schedule, x);
      TotalPrice(seats[key := seats[key].(price := seats[key].price + d)], schedule, ids) == TotalPrice(seats, schedule, ids) + d
  {
    var key := SeatKey(schedule, x);
    var row := seats[key].(price := seats[key].price + d);
    var n :| 0 <= n < |ids| && ids[n] == x;
    var rest := ids[..n] + ids[n + 1..];
    TotalWithout(seats, schedule, ids, n);
    TotalWithout(seats[key := row], schedule, ids, n);
    OtherPriceIsNoMatter(seats, schedule, rest, x, row);
    TotalOfOne(seats, schedule, x);
    TotalOfOne(seats[key := row], schedule, x);
  }
}
