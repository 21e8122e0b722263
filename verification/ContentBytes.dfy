/**
 The artifact that states its own serialized length: the length depends on the decimal digits of the
 stated length, and a loop of at most eight rounds looks for a value that agrees with itself.
 */
module ContentBytes {

  const ROUNDS: nat := 8

  function Digits(n: nat): (d: nat)
    ensures d >= 1
  {
    if n < 10 then 1 else 1 + Digits(n / 10)
  }

  /** The length of the artifact when it states `content`; `base` is the length of all the rest. */
  function Length(base: nat, content: nat): nat {
    base + Digits(content)
  }

  /** What the artifact states in round `k`. */
  function Stated(base: nat, k: nat): nat {
    if k == 0 then 1 else Length(base, Stated(base, k - 1))
  }

  lemma {:induction false} DigitsAreMonotone(a: nat, b: nat)
    requires a <= b
    ensures Digits(a) <= Digits(b)
    decreases b
  {
    if a >= 10 {
      DigitsAreMonotone(a / 10, b / 10);
    }
  }

  lemma {:induction false} FewDigits(n: nat)
    requires n >= 1
    ensures Digits(n) <= n
  {
    if n >= 10 {
      FewDigits(n / 10);
    }
  }

  lemma TenTimesIsOneDigitMore(n: nat)
    requires n >= 1
    ensures Digits(10 * n) == Digits(n) + 1
  {
    assert 10 * n / 10 == n;
  }

  lemma {:induction false} StatedNeverShrinks(base: nat, k: nat)
    ensures Stated(base, k) <= Stated(base, k + 1)
  {
    if k > 0 {
      StatedNeverShrinks(base, k - 1);
      DigitsAreMonotone(Stated(base, k - 1), Stated(base, k));
    }
  }

  /** From the fourth round on the artifact states its own length, whatever the rest is. */
  lemma ConvergesInFourRounds(base: nat)
    ensures Stated(base, 4) == Stated(base, 3)
  {
    var first := Stated(base, 1);
    var d := Digits(first);
    assert Stated(base, 0) == 1 && first == Length(base, Stated(base, 0)) && Stated(base, 2) == Length(base, first);
    FewDigits(first);
    TenTimesIsOneDigitMore(first);
    DigitsAreMonotone(first, base + d);
    DigitsAreMonotone(base + d, base + d + 1);
    DigitsAreMonotone(base + d + 1, 10 * first);
    assert Stated(base, 3) == base + Digits(base + d);
    assert Stated(base, 4) == base + Digits(Stated(base, 3));
  }

  /** Of the lengths that agree with themselves, the loop heads for the least. */
  lemma {:induction false} StatedStaysBelow(base: nat, k: nat, fixed: nat)
    requires fixed >= 1 && Length(base, fixed) == fixed
    ensures Stated(base, k) <= fixed
  {
    if k > 0 {
      StatedStaysBelow(base, k - 1, fixed);
      DigitsAreMonotone(Stated(base, k - 1), fixed);
    }
  }

  /** Fewer than four rounds are not always enough, and two lengths can agree with themselves. */
  lemma FourRoundsCanBeNeeded()
    ensures Stated(98, 1) != Stated(98, 0) && Stated(98, 2) != Stated(98, 1) && Stated(98, 3) != Stated(98, 2)
    ensures Length(8, 9) == 9 && Length(8, 10) == 10
  {
    assert Stated(98, 1) == 99;
    assert Digits(99) == 2 && Stated(98, 2) == 100;
    assert Digits(10) == 2 && Digits(100) == 3 && Stated(98, 3) == 101;
  }

  datatype Outcome = Returned(content: nat) | ContractViolation | OutputBudgetExceeded

  /** `_identify_analysis`: the contract of the artifact refuses a stated length over the limit in
      every round, so that an artifact that is too long never reaches the loop's own budget error. */
  method IdentifyAnalysis(base: nat, maxOutputBytes: nat) returns (outcome: Outcome, rounds: nat)
    ensures outcome.Returned? <==> Stated(base, 3) <= maxOutputBytes
    ensures outcome.Returned? ==> outcome.content == Stated(base, 3) == Length(base, outcome.content)
    ensures outcome.Returned? ==> forall fixed: nat :: fixed >= 1 && Length(base, fixed) == fixed ==> outcome.content <= fixed
    ensures outcome != OutputBudgetExceeded && rounds <= 4 < ROUNDS
  {
    var content := 1;
    rounds := 0;
    ConvergesInFourRounds(base);
    StatedNeverShrinks(base, 0);
    StatedNeverShrinks(base, 1);
    StatedNeverShrinks(base, 2);
    while rounds < ROUNDS
      invariant rounds <= 3 && content == Stated(base, rounds)
    {
      rounds := rounds + 1;
      if content > maxOutputBytes {
        return ContractViolation, rounds;
      }
      var actual := Length(base, content);
      assert actual == Stated(base, rounds);
      if actual == content {
        FixedFromThere(base, rounds - 1, 3);
        if actual > maxOutputBytes {
          break;
        }
        forall fixed: nat | fixed >= 1 && Length(base, fixed) == fixed ensures content <= fixed {
          StatedStaysBelow(base, rounds - 1, fixed);
        }
        return Returned(actual), rounds;
      }
      content := actual;
    }
    outcome := OutputBudgetExceeded;
  }

  lemma {:induction false} FixedFromThere(base: nat, k: nat, later: nat)
    requires k <= later && Stated(base, k + 1) == Stated(base, k)
    ensures Stated(base, later) == Stated(base, k)
    decreases later
  {
    if k < later {
      FixedFromThere(base, k, later - 1);
    }
  }
}
