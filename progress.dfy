/** Which steps are drawn with the past paint: counted from the first step in
    the common order, from the last step in the reversed order. */
module Progress {

  /** Whether step `i` of `totalStep` is past when the current step is `curStep`. */
  function IsPast(commonOrder: bool, totalStep: int, curStep: int, i: int): bool
  {
    if commonOrder then i <= curStep else totalStep - i < curStep
  }

  /** The two orders mirror each other: step `i` in the common order is
      coloured like step `totalStep + 1 - i` in the reversed order. */
  lemma MirrorOrders(totalStep: int, curStep: int, i: int)
    ensures IsPast(true, totalStep, curStep, i) == IsPast(false, totalStep, curStep, totalStep + 1 - i)
  {
  }

  /** The past steps form one run: a prefix in the common order, a suffix in
      the reversed order. */
  lemma PastIsPrefixOrSuffix(totalStep: int, curStep: int, i: int, j: int)
    requires i <= j
    ensures IsPast(true, totalStep, curStep, j) ==> IsPast(true, totalStep, curStep, i)
    ensures IsPast(false, totalStep, curStep, i) ==> IsPast(false, totalStep, curStep, j)
  {
  }

  /** Number of past steps among steps 1..n. */
  function PastCount(commonOrder: bool, totalStep: int, curStep: int, n: nat): (c: nat)
    ensures c <= n
  {
    if n == 0 then 0
    else PastCount(commonOrder, totalStep, curStep, n - 1) + (if IsPast(commonOrder, totalStep, curStep, n) then 1 else 0)
  }

  function Min(a: int, b: int): int { if a <= b then a else b }

  function Max(a: int, b: int): int { if a <= b then b else a }

  /** In the common order the first `curStep` steps are past. */
  lemma {:induction false} ForwardPastCount(totalStep: int, curStep: nat, n: nat)
    ensures PastCount(true, totalStep, curStep, n) == Min(curStep, n)
  {
    if n > 0 {
      ForwardPastCount(totalStep, curStep, n - 1);
    }
  }

  /** In the reversed order the last `curStep` steps are past. */
  lemma {:induction false} ReversedPastCount(totalStep: nat, curStep: nat, n: nat)
    requires n <= totalStep
    ensures PastCount(false, totalStep, curStep, n) == Max(0, n - Max(0, totalStep - curStep))
  {
    if n > 0 {
      ReversedPastCount(totalStep, curStep, n - 1);
    }
  }

  /** Whatever the order, `curStep` counts the past steps: exactly
      min(curStep, totalStep) of them, so a value above `totalStep` marks
      every step past. */
  lemma PastCountIsCurStep(commonOrder: bool, totalStep: nat, curStep: nat)
    ensures PastCount(commonOrder, totalStep, curStep, totalStep) == Min(curStep, totalStep)
  {
    if commonOrder {
      ForwardPastCount(totalStep, curStep, totalStep);
    } else {
      ReversedPastCount(totalStep, curStep, totalStep);
    }
  }
}
