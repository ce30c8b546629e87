/** Worker pod names: one per task and retry count. */
module PodNames {

  function Digit(d: nat): char
    requires d < 10
  {
    ('0' as int + d) as char
  }

  predicate IsDigit(c: char) {
    '0' <= c <= '9'
  }

  predicate AllDigits(s: string) {
    forall i :: 0 <= i < |s| ==> IsDigit(s[i])
  }

  /** The decimal rendering that the `%d` verb produces for a non-negative count. */
  function Decimal(n: nat): string {
    if n < 10 then [Digit(n)] else Decimal(n / 10) + [Digit(n % 10)]
  }

  /** The suffix that a retried attempt adds to its task's name. */
  function RetrySuffix(retry: nat): string {
    "-r" + Decimal(retry)
  }

  function PodName(task: string, retry: nat): string {
    if retry > 0 then "worker-" + task + RetrySuffix(retry) else "worker-" + task
  }

  lemma {:induction false} DecimalIsDigits(n: nat)
    ensures |Decimal(n)| > 0 && AllDigits(Decimal(n))
  {
    if n >= 10 {
      DecimalIsDigits(n / 10);
    }
  }

  lemma {:induction false} DecimalInjective(m: nat, n: nat)
    requires Decimal(m) == Decimal(n)
    ensures m == n
  {
    DecimalIsDigits(m / 10);
    DecimalIsDigits(n / 10);
    var s, t := Decimal(m), Decimal(n);
    assert s[|s| - 1] == Digit(m % 10) && t[|t| - 1] == Digit(n % 10);
    if m >= 10 && n >= 10 {
      assert Decimal(m / 10) == s[..|s| - 1] == t[..|t| - 1] == Decimal(n / 10);
      DecimalInjective(m / 10, n / 10);
    }
  }

  /** Cutting a string before its longest run of trailing digits is unambiguous. */
  lemma DigitTailUnique(a: string, c: char, d: string, b: string, e: char, f: string)
    requires a + [c] + d == b + [e] + f
    requires !IsDigit(c) && !IsDigit(e) && AllDigits(d) && AllDigits(f)
    ensures a + [c] == b + [e] && d == f
  {
    var s, t := a + [c] + d, b + [e] + f;
    assert s[|a|] == c && t[|b|] == e;
    if |d| != |f| {
      assert false;
    }
    assert s[..|a| + 1] == a + [c] && t[..|a| + 1] == b + [e];
    assert s[|a| + 1..] == d && t[|a| + 1..] == f;
  }

  lemma RetriedNamesDiffer(task: string, retry: nat, other: string, count: nat)
    requires task + RetrySuffix(retry) == other + RetrySuffix(count)
    ensures task == other && retry == count
  {
    DecimalIsDigits(retry);
    DecimalIsDigits(count);
    var a, b := task + "-", other + "-";
    assert a + ['r'] + Decimal(retry) == task + RetrySuffix(retry);
    assert b + ['r'] + Decimal(count) == other + RetrySuffix(count);
    DigitTailUnique(a, 'r', Decimal(retry), b, 'r', Decimal(count));
    assert task == (a + ['r'])[..|a| - 1] && other == (b + ['r'])[..|b| - 1];
    DecimalInjective(retry, count);
  }

  /** A first attempt's task name may end like another task's retry suffix. */
  predicate NameClash(task: string, retry: nat, other: string, count: nat) {
    retry == 0 && count > 0 && task == other + RetrySuffix(count)
  }

  /** Exactly when two attempts, of any two tasks, share a pod name. */
  lemma PodNameCollision(task: string, retry: nat, other: string, count: nat)
    ensures PodName(task, retry) == PodName(other, count) <==>
            || (task == other && retry == count)
            || NameClash(task, retry, other, count)
            || NameClash(other, count, task, retry)
  {
    var tail := (s: string, k: nat) => if k > 0 then s + RetrySuffix(k) else s;
    var x, y := tail(task, retry), tail(other, count);
    assert PodName(task, retry) == "worker-" + x && PodName(other, count) == "worker-" + y;
    assert ("worker-" + x)[7..] == x && ("worker-" + y)[7..] == y;
    if x == y && retry > 0 && count > 0 {
      RetriedNamesDiffer(task, retry, other, count);
    }
  }

  /** Attempts of one task never share a pod name. */
  lemma AttemptsDiffer(task: string, retry: nat, count: nat)
    requires PodName(task, retry) == PodName(task, count)
    ensures retry == count
  {
    PodNameCollision(task, retry, task, count);
    DecimalIsDigits(retry);
    DecimalIsDigits(count);
  }

  /** The number that a string of digits reads as. */
  function ValueOf(s: string): int {
    if s == "" then 0 else 10 * ValueOf(s[..|s| - 1]) + (s[|s| - 1] as int - '0' as int)
  }

  /** The decimal rendering reads as its number, and has no leading zero. */
  lemma {:induction false} DecimalReadsBack(n: nat)
    ensures ValueOf(Decimal(n)) == n
    ensures n > 0 ==> Decimal(n)[0] != '0'
  {
    var s := Decimal(n);
    if n >= 10 {
      DecimalReadsBack(n / 10);
      DecimalIsDigits(n / 10);
      assert s[..|s| - 1] == Decimal(n / 10);
    } else {
      assert s[..|s| - 1] == "";
    }
  }

  /** What a pod name tells: the task, and from the second attempt on the retry count. */
  lemma PodNameReadsBack(task: string, retry: nat)
    ensures PodName(task, 0) == "worker-" + task
    ensures retry > 0 ==>
      var name, head := PodName(task, retry), "worker-" + task + "-r";
      head <= name && AllDigits(name[|head|..]) && ValueOf(name[|head|..]) == retry && name[|head|] != '0'
  {
    DecimalReadsBack(retry);
    DecimalIsDigits(retry);
    if retry > 0 {
      var name, head := PodName(task, retry), "worker-" + task + "-r";
      assert name == head + Decimal(retry);
      assert name[|head|..] == Decimal(retry);
    }
  }
}
