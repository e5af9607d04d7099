/** Accounts of the two retry loops: which calls they make, how long they
    sleep, and what they return, against whatever outcomes the calls have. */
module RetryLoops {
  import opened Lists
  import opened Options

  /** An error of one call: a Postgres error with its SQLSTATE, or any other. */
  datatype Failure = PgError(sqlState: string) | OtherError(text: string)

  datatype Attempt<+T> = Good(res: T) | Bad(failure: Failure)

  /** The error a loop returns: one failure as it is, or the wrapped last one. */
  datatype RetryError = Raw(failure: Failure) | After(attempts: int, last: Option<Failure>)

  datatype Verdict<+T> = Returned(res: T) | GaveUp(err: RetryError)

  const CONNECTION_FAILURE := "08006"
  const TOO_MANY_CONNECTIONS := "53300"
  const DEADLOCK_DETECTED := "40P01"

  predicate Retryable(f: Failure) {
    && f.PgError?
    && (|| f.sqlState == CONNECTION_FAILURE
        || f.sqlState == TOO_MANY_CONNECTIONS
        || f.sqlState == DEADLOCK_DETECTED)
  }

  function AtLeastZero(n: int): (m: nat)
    ensures m >= n && (m == n || m == 0)
  {
    if n < 0 then 0 else n
  }

  function LastFailure<T>(trail: seq<Attempt<T>>): Option<Failure> {
    if trail == [] || trail[|trail| - 1].Good? then None else Some(trail[|trail| - 1].failure)
  }

  /** The sleeps after k failures. */
  function Delays(base: int, step: int, k: nat): seq<int> {
    if k == 0 then [] else Delays(base, step, k - 1) + [base + step * (k - 1)]
  }

  /** Retry made the calls in trail, slept, and answered v. */
  ghost predicate RetryAccount<T>(trail: seq<Attempt<T>>, attempts: int, base: int, step: int,
                                  slept: seq<int>, v: Verdict<T>)
  {
    && |trail| <= AtLeastZero(attempts)
    && (forall k :: 0 <= k < |trail| - 1 ==> trail[k].Bad?)
    && match v
       case Returned(res) =>
         trail != [] && trail[|trail| - 1] == Good(res) && slept == Delays(base, step, |trail| - 1)
       case GaveUp(err) =>
         && |trail| == AtLeastZero(attempts)
         && (trail != [] ==> trail[|trail| - 1].Bad?)
         && err == After(attempts, LastFailure(trail))
         && slept == Delays(base, step, |trail|)
  }

  /** RetryDB made the calls in trail, slept, and answered v. */
  ghost predicate RetryDBAccount<T>(trail: seq<Attempt<T>>, attempts: int, base: int, step: int,
                                    slept: seq<int>, v: Verdict<T>)
  {
    && |trail| <= AtLeastZero(attempts - 1)
    && (forall k :: 0 <= k < |trail| - 1 ==> trail[k].Bad? && Retryable(trail[k].failure))
    && match v
       case Returned(res) =>
         trail != [] && trail[|trail| - 1] == Good(res) && slept == Delays(base, step, |trail| - 1)
       case GaveUp(Raw(f)) =>
         trail != [] && trail[|trail| - 1] == Bad(f) && !Retryable(f) && slept == Delays(base, step, |trail| - 1)
       case GaveUp(After(n, last)) =>
         && n == attempts && |trail| == AtLeastZero(attempts - 1)
         && (trail != [] ==> trail[|trail| - 1].Bad? && Retryable(trail[|trail| - 1].failure))
         && last == LastFailure(trail)
         && slept == Delays(base, step, |trail|)
  }

  /** The outcomes alone decide everything Retry does. */
  lemma RetryIsDetermined<T>(outcomes: seq<Attempt<T>>, attempts: int, base: int, step: int,
                             m: nat, slept: seq<int>, v: Verdict<T>, m': nat, slept': seq<int>, v': Verdict<T>)
    requires m <= |outcomes| && m' <= |outcomes|
    requires RetryAccount(outcomes[..m], attempts, base, step, slept, v)
    requires RetryAccount(outcomes[..m'], attempts, base, step, slept', v')
    ensures m == m' && slept == slept' && v == v'
  {
    assert forall k :: 0 <= k < m ==> outcomes[..m][k] == outcomes[k];
    assert forall k :: 0 <= k < m' ==> outcomes[..m'][k] == outcomes[k];
  }

  lemma RetryDBIsDetermined<T>(outcomes: seq<Attempt<T>>, attempts: int, base: int, step: int,
                               m: nat, slept: seq<int>, v: Verdict<T>, m': nat, slept': seq<int>, v': Verdict<T>)
    requires m <= |outcomes| && m' <= |outcomes|
    requires RetryDBAccount(outcomes[..m], attempts, base, step, slept, v)
    requires RetryDBAccount(outcomes[..m'], attempts, base, step, slept', v')
    ensures m == m' && slept == slept' && v == v'
  {
    assert forall k :: 0 <= k < m ==> outcomes[..m][k] == outcomes[k];
    assert forall k :: 0 <= k < m' ==> outcomes[..m'][k] == outcomes[k];
  }

  /** The first success is returned whenever the loop gets that far, and no
      call is made after it. */
  lemma RetryFindsFirstSuccess<T>(outcomes: seq<Attempt<T>>, first: nat, attempts: int, base: int, step: int,
                                  m: nat, slept: seq<int>, v: Verdict<T>)
    requires first < |outcomes| && outcomes[first].Good?
    requires forall k :: 0 <= k < first ==> outcomes[k].Bad?
    requires m <= |outcomes| && RetryAccount(outcomes[..m], attempts, base, step, slept, v)
    ensures v.Returned? <==> first < attempts
    ensures v.Returned? ==> m == first + 1 && v.res == outcomes[first].res
    ensures !v.Returned? ==> m == AtLeastZero(attempts)
  {
    assert forall k :: 0 <= k < m ==> outcomes[..m][k] == outcomes[k];
  }

  lemma RetryDBFindsFirstSuccess<T>(outcomes: seq<Attempt<T>>, first: nat, attempts: int, base: int, step: int,
                                    m: nat, slept: seq<int>, v: Verdict<T>)
    requires first < |outcomes| && outcomes[first].Good?
    requires forall k :: 0 <= k < first ==> outcomes[k].Bad?
    requires m <= |outcomes| && RetryDBAccount(outcomes[..m], attempts, base, step, slept, v)
    ensures v.Returned? <==> first < attempts - 1 && forall k :: 0 <= k < first ==> Retryable(outcomes[k].failure)
    ensures v.Returned? ==> m == first + 1 && v.res == outcomes[first].res
    ensures v.GaveUp? && v.err.Raw? ==> m <= first && v.err.failure == outcomes[m - 1].failure
    ensures v.GaveUp? && v.err.After? ==> m == AtLeastZero(attempts - 1)
  {
    assert forall k :: 0 <= k < m ==> outcomes[..m][k] == outcomes[k];
  }

  /** What Retry says when it gives up: its last failure, with a sleep after
      every failure. */
  lemma RetryGivesUp<T>(outcomes: seq<Attempt<T>>, attempts: int, base: int, step: int,
                        m: nat, slept: seq<int>, v: Verdict<T>)
    requires m <= |outcomes| && RetryAccount(outcomes[..m], attempts, base, step, slept, v) && v.GaveUp?
    ensures m == AtLeastZero(attempts) && forall k :: 0 <= k < m ==> outcomes[k].Bad?
    ensures v.err == After(attempts, if attempts <= 0 then None else Some(outcomes[attempts - 1].failure))
    ensures |slept| == m && forall i :: 0 <= i < m ==> slept[i] == base + step * i
  {
    assert forall k :: 0 <= k < m ==> outcomes[..m][k] == outcomes[k];
    DelaysAt(base, step, m);
  }

  /** The same for RetryDB: it sleeps after every failure but one that is not
      retryable, which it returns as it is. */
  lemma RetryDBGivesUp<T>(outcomes: seq<Attempt<T>>, attempts: int, base: int, step: int,
                          m: nat, slept: seq<int>, v: Verdict<T>)
    requires m <= |outcomes| && RetryDBAccount(outcomes[..m], attempts, base, step, slept, v) && v.GaveUp?
    ensures forall k :: 0 <= k < m ==> outcomes[k].Bad?
    ensures v.err ==
      if m > 0 && !Retryable(outcomes[m - 1].failure) then Raw(outcomes[m - 1].failure)
      else After(attempts, if m == 0 then None else Some(outcomes[m - 1].failure))
    ensures v.err.After? ==> m == AtLeastZero(attempts - 1)
    ensures |slept| == if v.err.Raw? then m - 1 else m
    ensures forall i :: 0 <= i < |slept| ==> slept[i] == base + step * i
  {
    assert forall k :: 0 <= k < m ==> outcomes[..m][k] == outcomes[k];
    DelaysAt(base, step, |slept|);
    DelaysAt(base, step, m);
    if v.err.Raw? {
      DelaysAt(base, step, m - 1);
    }
  }

  /** The sleep after the first failure is base; each later one is step longer. */
  lemma {:induction false} DelaysAt(base: int, step: int, k: nat)
    ensures |Delays(base, step, k)| == k && forall i :: 0 <= i < k ==> Delays(base, step, k)[i] == base + step * i
  {
    if k > 0 {
      DelaysAt(base, step, k - 1);
    }
  }

  lemma OneMoreDelay(base: int, step: int, k: int)
    ensures 2 * k * base + step * (k * (k - 1))
         == 2 * (k - 1) * base + step * ((k - 1) * (k - 2)) + 2 * (base + step * (k - 1))
  {
    var m := (k - 1) * (k - 2);
    assert k * (k - 1) == m + 2 * (k - 1);
    assert step * (m + 2 * (k - 1)) == step * m + 2 * (step * (k - 1));
  }

  /** Sleeping after k failures takes k*base + step*k*(k-1)/2 in all. */
  lemma {:induction false} TotalSleep(base: int, step: int, k: nat)
    ensures 2 * Sum(Delays(base, step, k)) == 2 * k * base + step * (k * (k - 1))
  {
    if k > 0 {
      TotalSleep(base, step, k - 1);
      OneMoreDelay(base, step, k);
    }
  }
}
