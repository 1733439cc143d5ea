/** Counting how many places hold a given resource. */
module Tally {
  import opened Wrappers

  function Count<T(==)>(places: seq<Option<T>>, x: T): nat {
    if places == [] then 0 else (if places[0] == Some(x) then 1 else 0) + Count(places[1..], x)
  }

  function One(present: bool): int {
    if present then 1 else 0
  }

  lemma {:induction false} CountAppend<T>(places: seq<Option<T>>, last: Option<T>, x: T)
    ensures Count(places + [last], x) == Count(places, x) + One(last == Some(x))
  {
    if places == [] {
      assert places + [last] == [last];
    } else {
      assert (places + [last])[1..] == places[1..] + [last];
      CountAppend(places[1..], last, x);
    }
  }

  lemma {:induction false} CountUpdate<T>(places: seq<Option<T>>, i: nat, now: Option<T>, x: T)
    requires i < |places|
    ensures Count(places[i := now], x) == Count(places, x) - One(places[i] == Some(x)) + One(now == Some(x))
  {
    if i > 0 {
      assert places[i := now][1..] == places[1..][i - 1 := now];
      CountUpdate(places[1..], i - 1, now, x);
    }
  }

  lemma {:induction false} CountPositive<T>(places: seq<Option<T>>, x: T)
    ensures Count(places, x) > 0 <==> Some(x) in places
  {
    if places != [] { CountPositive(places[1..], x); }
  }
}
