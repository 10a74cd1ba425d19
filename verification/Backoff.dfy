/**
 * Retry delays (frontend/app/lib/uploader.ts) and the classification of HTTP
 * statuses that decides between them (frontend/app/lib/apiClient.ts, ApiError).
 */
module Backoff {
  const BASE_BACKOFF_MS := 2_000
  const MAX_BACKOFF_MS := 300_000

  function Pow2(n: nat): (p: nat)
    ensures p >= 1
  {
    if n == 0 then 1 else 2 * Pow2(n - 1)
  }

  function BackoffMs(attempts: int): int {
    var doubled := BASE_BACKOFF_MS * Pow2(if attempts - 1 > 0 then attempts - 1 else 0);
    if doubled < MAX_BACKOFF_MS then doubled else MAX_BACKOFF_MS
  }

  lemma {:induction false} Pow2Grows(m: nat, n: nat)
    requires m <= n
    ensures Pow2(m) <= Pow2(n)
  {
    if m < n {
      Pow2Grows(m, n - 1);
    }
  }

  lemma Pow2At8()
    ensures Pow2(7) == 128 && Pow2(8) == 256
  {
    assert Pow2(4) == 16;
  }

  /** Delays never shrink from one failure to the next and stay between the base and the cap. */
  lemma BackoffIsMonotoneAndCapped(a: int, b: int)
    requires a <= b
    ensures BASE_BACKOFF_MS <= BackoffMs(a) <= BackoffMs(b) <= MAX_BACKOFF_MS
  {
    Pow2Grows(if a - 1 > 0 then a - 1 else 0, if b - 1 > 0 then b - 1 else 0);
  }

  /** The time that must pass between an item's first attempt and its k-th: the sum of k - 1 delays. */
  function Wait(k: nat): int
    requires k >= 1
  {
    if k == 1 then 0 else Wait(k - 1) + BackoffMs(k - 1)
  }

  lemma {:induction false} WaitGrows(j: nat, k: nat)
    requires 1 <= j <= k
    ensures 0 <= Wait(j) <= Wait(k)
  {
    if k > j {
      WaitGrows(j, k - 1);
      BackoffIsMonotoneAndCapped(k - 1, k - 1);
    } else if j > 1 {
      WaitGrows(j - 1, j - 1);
      BackoffIsMonotoneAndCapped(j - 1, j - 1);
    }
  }

  lemma {:induction false} WaitDoubling(k: nat)
    requires 1 <= k <= 9
    ensures Wait(k) == 2_000 * (Pow2(k - 1) - 1)
  {
    if k > 1 {
      WaitDoubling(k - 1);
      Pow2Grows(k - 2, 7);
      Pow2At8();
    }
  }

  /** The closed form: doubling for eight delays, then a constant five minutes each. */
  lemma {:induction false} WaitClosedForm(k: nat)
    requires k >= 1
    ensures k <= 9 ==> Wait(k) == 2_000 * (Pow2(k - 1) - 1)
    ensures k > 9 ==> Wait(k) == 510_000 + 300_000 * (k - 9)
  {
    if k <= 9 {
      WaitDoubling(k);
    } else {
      WaitClosedForm(k - 1);
      Pow2Grows(8, k - 2);
      Pow2At8();
    }
  }
}

module ApiErrors {
  /** `Response.ok`. */
  predicate IsOk(status: int) { 200 <= status < 300 }

  predicate IsLocked(status: int) { status == 423 }

  predicate IsPermanent(status: int) { 400 <= status < 500 && status != 423 }
}
