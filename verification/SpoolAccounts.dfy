/**
Space accounting of the spools: a charge per file, summed over record numbers.
*/
module SpoolAccounts {
  /** Directory space is charged in 4 KiB units. */
  function Charge(n: nat): nat { (n + 4095) / 4096 * 4096 }

  /** A file is charged the least number of whole blocks that hold it. */
  lemma ChargeBlocks(n: nat)
    ensures n <= Charge(n) < n + 4096 && Charge(n) % 4096 == 0
  {
  }

  /** The sum of a cost over all numbers below a bound. */
  function Total(cost: nat -> nat, upTo: nat): nat {
    if upTo == 0 then 0 else Total(cost, upTo - 1) + cost(upTo - 1)
  }

  lemma {:induction false} TotalFrame(f: nat -> nat, g: nat -> nat, upTo: nat)
    requires forall k: nat :: k < upTo ==> f(k) == g(k)
    ensures Total(f, upTo) == Total(g, upTo)
  {
    if upTo > 0 { TotalFrame(f, g, upTo - 1); }
  }

  lemma {:induction false} TotalMonotone(f: nat -> nat, g: nat -> nat, upTo: nat)
    requires forall k: nat :: k < upTo ==> f(k) <= g(k)
    ensures Total(f, upTo) <= Total(g, upTo)
  {
    if upTo > 0 { TotalMonotone(f, g, upTo - 1); }
  }

  /** Changing one entry changes the total by the difference. */
  lemma {:induction false} TotalChange(f: nat -> nat, g: nat -> nat, at: nat, upTo: nat)
    requires at < upTo && forall k: nat :: k < upTo && k != at ==> f(k) == g(k)
    ensures Total(g, upTo) - g(at) == Total(f, upTo) - f(at)
  {
    if at == upTo - 1 {
      TotalFrame(f, g, upTo - 1);
    } else {
      TotalChange(f, g, at, upTo - 1);
    }
  }

  lemma {:induction false} TotalExtend(f: nat -> nat, upTo: nat, more: nat)
    requires upTo <= more && forall k: nat :: upTo <= k < more ==> f(k) == 0
    ensures Total(f, more) == Total(f, upTo)
  {
    if upTo < more { TotalExtend(f, upTo, more - 1); }
  }

  function Member(s: set<nat>): nat -> nat {
    (n: nat) => if n in s then 1 else 0
  }

  /** Counting members one by one. */
  lemma {:induction false} CountMembers(s: set<nat>, upTo: nat)
    requires forall n :: n in s ==> n < upTo
    ensures Total(Member(s), upTo) == |s|
  {
    if upTo == 0 {
      assert s == {};
    } else {
      var rest := s - {upTo - 1};
      CountMembers(rest, upTo - 1);
      TotalFrame(Member(s), Member(rest), upTo - 1);
      assert s == if upTo - 1 in s then rest + {upTo - 1} else rest;
    }
  }
}
