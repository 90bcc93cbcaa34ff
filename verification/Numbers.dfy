// Positive integers and the few facts about products that linear arithmetic does not see.

module Numbers {

  type Positive = n: int | 1 <= n witness 1

  lemma MultiplyMonotone(a: int, b: int, m: nat)
    requires a <= b
    ensures a * m <= b * m
  {
  }

  lemma OneMore(times: int, each: int)
    ensures each + times * each == (times + 1) * each
  {
  }

  /** How often a part fits into a total. */
  lemma AtMost(times: nat, each: Positive, total: nat)
    requires times * each <= total
    ensures times <= total / each
  {
    assert total == each * (total / each) + total % each;
    assert (total / each + 1) * each == each * (total / each) + each;
    if times > total / each { MultiplyMonotone(total / each + 1, times, each); }
  }

  lemma TwiceProduct(a: int, b: int)
    ensures a * (2 * b) == 2 * (a * b)
  {
  }
}
