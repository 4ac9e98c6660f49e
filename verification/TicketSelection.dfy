/**
 Random allocation of ticket numbers: a partial Fisher-Yates shuffle over the free numbers.
 The main result is that the random indexes and the ordered selections correspond one to one,
 so independent uniform indexes make every ordered selection equally likely.
 */
module TicketSelection {

  predicate Distinct(s: seq<int>) {
    forall i, j :: 0 <= i < j < |s| ==> s[i] != s[j]
  }

  /** The free numbers of a raffle, in ascending order. */
  function Available(used: set<int>, total: int): seq<int>
    decreases if total < 0 then 0 else total
  {
    if total <= 0 then []
    else Available(used, total - 1) + (if total in used then [] else [total])
  }

  lemma {:induction false} AvailableIsExact(used: set<int>, total: int)
    ensures Distinct(Available(used, total))
    ensures forall n :: n in Available(used, total) <==> 1 <= n <= total && n !in used
    decreases if total < 0 then 0 else total
  {
    if total > 0 {
      AvailableIsExact(used, total - 1);
      var before := Available(used, total - 1);
      forall i | 0 <= i < |before| ensures before[i] != total {
        assert before[i] in before;
      }
    }
  }

  /** When every used number is a number of the raffle, free and used numbers add up to the total. */
  lemma {:induction false} AvailableCount(used: set<int>, total: nat)
    requires forall n :: n in used ==> 1 <= n <= total
    ensures |Available(used, total)| + |used| == total
    decreases total
  {
    if total == 0 {
      assert forall n :: n !in used;
      assert used == {};
    } else {
      var below := used - {total};
      AvailableCount(below, total - 1);
      AvailableDependsOnRange(used, below, total - 1);
    }
  }

  lemma {:induction false} AvailableDependsOnRange(a: set<int>, b: set<int>, total: nat)
    requires forall n :: 1 <= n <= total ==> (n in a <==> n in b)
    ensures Available(a, total) == Available(b, total)
    decreases total
  {
    if total > 0 {
      AvailableDependsOnRange(a, b, total - 1);
    }
  }

  /** The indexes a run of k draws from n numbers may use: draw i picks an index from i up to n - 1. */
  ghost predicate ValidDraws(n: nat, k: nat, draws: seq<nat>) {
    |draws| == k <= n && forall i :: 0 <= i < k ==> i <= draws[i] < n
  }

  function Swap(s: seq<int>, i: nat, j: nat): (r: seq<int>)
    requires i < |s| && j < |s|
  {
    s[i := s[j]][j := s[i]]
  }

  /** The numbers after the draws: draw i swaps position i with the drawn index. */
  ghost function After(numbers: seq<int>, draws: seq<nat>): (r: seq<int>)
    requires ValidDraws(|numbers|, |draws|, draws)
    ensures |r| == |numbers|
  {
    if |draws| == 0 then numbers
    else
      var last := |draws| - 1;
      Swap(After(numbers, draws[..last]), last, draws[last])
  }

  /** Same length, same members, each once: the second list is a permutation of the first. */
  ghost predicate Reordered(a: seq<int>, b: seq<int>) {
    |a| == |b| && Distinct(a) && Distinct(b) && forall x :: x in a <==> x in b
  }

  lemma SwapReorders(s: seq<int>, i: nat, j: nat)
    requires Distinct(s) && i < |s| && j < |s|
    ensures Reordered(s, Swap(s, i, j))
  {
    var r := Swap(s, i, j);
    forall x | x in s ensures x in r {
      var p :| 0 <= p < |s| && s[p] == x;
      assert r[if p == i then j else if p == j then i else p] == x;
    }
  }

  /** The array being shuffled stays a permutation of the free numbers after every draw. */
  lemma {:induction false} ShuffleReorders(numbers: seq<int>, draws: seq<nat>)
    requires Distinct(numbers) && ValidDraws(|numbers|, |draws|, draws)
    ensures Reordered(numbers, After(numbers, draws))
  {
    if |draws| > 0 {
      var last := |draws| - 1;
      ShuffleReorders(numbers, draws[..last]);
      SwapReorders(After(numbers, draws[..last]), last, draws[last]);
    }
  }

  /** The ordered selection the draws produce. */
  ghost function Selected(numbers: seq<int>, draws: seq<nat>): seq<int>
    requires ValidDraws(|numbers|, |draws|, draws)
  {
    After(numbers, draws)[..|draws|]
  }

  /** An ordered selection of k different members of numbers. */
  ghost predicate Arrangement(numbers: seq<int>, k: nat, t: seq<int>) {
    |t| == k && Distinct(t) && forall x :: x in t ==> x in numbers
  }

  /** Later draws never touch earlier picks. */
  lemma SelectedPrefix(numbers: seq<int>, draws: seq<nat>)
    requires ValidDraws(|numbers|, |draws|, draws) && |draws| > 0
    ensures ValidDraws(|numbers|, |draws| - 1, draws[..|draws| - 1])
    ensures Selected(numbers, draws)
         == Selected(numbers, draws[..|draws| - 1])
            + [After(numbers, draws[..|draws| - 1])[draws[|draws| - 1]]]
  {
    var last := |draws| - 1;
    SwapPicks(After(numbers, draws[..last]), last, draws[last]);
  }

  /** A swap with a later position leaves everything before untouched and picks that position. */
  lemma SwapPicks(s: seq<int>, i: nat, j: nat)
    requires i <= j < |s|
    ensures Swap(s, i, j)[..i + 1] == s[..i] + [s[j]]
  {
  }

  /** Any valid draws select that many different members of the numbers. */
  lemma SelectionIsArrangement(numbers: seq<int>, draws: seq<nat>)
    requires Distinct(numbers) && ValidDraws(|numbers|, |draws|, draws)
    ensures Arrangement(numbers, |draws|, Selected(numbers, draws))
  {
    ShuffleReorders(numbers, draws);
  }

  /** Different draws give different selections. */
  lemma {:induction false} SelectionInjective(numbers: seq<int>, a: seq<nat>, b: seq<nat>)
    requires Distinct(numbers) && |a| == |b|
    requires ValidDraws(|numbers|, |a|, a) && ValidDraws(|numbers|, |b|, b)
    requires Selected(numbers, a) == Selected(numbers, b)
    ensures a == b
    decreases |a|
  {
    if |a| > 0 {
      var k := |a| - 1;
      SelectedPrefix(numbers, a);
      SelectedPrefix(numbers, b);
      assert Selected(numbers, a)[..k] == Selected(numbers, a[..k]);
      assert Selected(numbers, b)[..k] == Selected(numbers, b[..k]);
      SelectionInjective(numbers, a[..k], b[..k]);
      ShuffleReorders(numbers, a[..k]);
      assert Selected(numbers, a)[k] == Selected(numbers, b)[k];
      assert a == a[..k] + [a[k]] && b == b[..k] + [b[k]];
    }
  }

  /** Once the draws so far produced all but the last pick, some admissible index produces the last one. */
  lemma LastPick(numbers: seq<int>, before: seq<nat>, t: seq<int>) returns (r: nat)
    requires Distinct(numbers) && |t| > 0 && Arrangement(numbers, |t|, t)
    requires |before| == |t| - 1 && ValidDraws(|numbers|, |before|, before)
    requires Selected(numbers, before) == t[..|t| - 1]
    ensures |before| <= r < |numbers| && After(numbers, before)[r] == t[|t| - 1]
  {
    var k := |t| - 1;
    var m := After(numbers, before);
    ShuffleReorders(numbers, before);
    var x := t[k];
    assert x in t && x in numbers && x in m;
    r :| 0 <= r < |m| && m[r] == x;
    assert forall p :: 0 <= p < k ==> m[p] == Selected(numbers, before)[p] == t[p];
  }

  /** Every ordered selection is produced by some draws. */
  lemma {:induction false} SelectionSurjective(numbers: seq<int>, t: seq<int>) returns (draws: seq<nat>)
    requires Distinct(numbers) && Arrangement(numbers, |t|, t)
    ensures ValidDraws(|numbers|, |t|, draws) && Selected(numbers, draws) == t
    decreases |t|
  {
    if |t| == 0 {
      draws := [];
    } else {
      var k := |t| - 1;
      assert Arrangement(numbers, k, t[..k]);
      var before := SelectionSurjective(numbers, t[..k]);
      var r := LastPick(numbers, before, t);
      draws := before + [r];
      assert draws[..k] == before;
      SelectedPrefix(numbers, draws);
      assert t == t[..k] + [t[k]];
    }
  }

  /**
   Uniform selection: each ordered selection of k free numbers is the outcome of exactly one
   sequence of random indexes, and no other outcome is possible.
   */
  lemma SelectionIsBijection(numbers: seq<int>, k: nat, t: seq<int>)
    requires Distinct(numbers) && k <= |numbers|
    ensures Arrangement(numbers, k, t) <==>
            exists draws :: ValidDraws(|numbers|, k, draws) && Selected(numbers, draws) == t
    ensures forall a, b | ValidDraws(|numbers|, k, a) && ValidDraws(|numbers|, k, b) ::
              Selected(numbers, a) == t && Selected(numbers, b) == t ==> a == b
  {
    if Arrangement(numbers, k, t) {
      var draws := SelectionSurjective(numbers, t);
      assert ValidDraws(|numbers|, k, draws);
    }
    forall draws | ValidDraws(|numbers|, k, draws) && Selected(numbers, draws) == t
      ensures Arrangement(numbers, k, t)
    {
      SelectionIsArrangement(numbers, draws);
    }
    forall a, b | ValidDraws(|numbers|, k, a) && ValidDraws(|numbers|, k, b)
                  && Selected(numbers, a) == t && Selected(numbers, b) == t
      ensures a == b
    {
      SelectionInjective(numbers, a, b);
    }
  }

  function DrawCount(quantity: int, available: nat): nat {
    if quantity <= 0 then 0 else if quantity < available then quantity else available
  }

  /**
   The selection loop. The random source is the sequence of indexes it hands out; index i is
   requested from the range i up to the number of free numbers.
   */
  method SelectRandomAvailableNumbers(used: set<int>, total: int, quantity: int, draws: seq<nat>)
    returns (selected: seq<int>)
    requires ValidDraws(|Available(used, total)|, DrawCount(quantity, |Available(used, total)|), draws)
    ensures selected == Selected(Available(used, total), draws)
    ensures |selected| == DrawCount(quantity, |Available(used, total)|)
    ensures Distinct(selected)
    ensures forall n :: n in selected ==> 1 <= n <= total && n !in used
  {
    var free: seq<int> := [];
    var number := 1;
    while number <= total
      invariant 1 <= number
      invariant total >= 0 ==> number <= total + 1
      invariant total < 1 ==> number == 1
      invariant free == Available(used, number - 1)
    {
      if number !in used {
        free := free + [number];
      }
      number := number + 1;
    }
    assert free == Available(used, total);

    var numbers := new int[|free|](i requires 0 <= i < |free| => free[i]);
    assert numbers[..] == free;
    selected := [];
    var drawCount := DrawCount(quantity, numbers.Length);
    for index := 0 to drawCount
      invariant ValidDraws(|free|, index, draws[..index])
      invariant numbers[..] == After(free, draws[..index])
      invariant selected == numbers[..index]
    {
      var randomIndex := draws[index];
      ghost var before := numbers[..];
      numbers[index], numbers[randomIndex] := numbers[randomIndex], numbers[index];
      assert numbers[..] == Swap(before, index, randomIndex);
      assert draws[..index + 1][..index] == draws[..index];
      selected := selected + [numbers[index]];
      assert numbers[..index] == before[..index];
    }
    assert draws[..drawCount] == draws;
    AvailableIsExact(used, total);
    SelectionIsArrangement(free, draws);
  }
}
