/** Decimal printing of natural numbers, as in Python's str and f-strings. */
module Decimal {
  predicate AllDigits(s: string) {
    forall i | 0 <= i < |s| :: '0' <= s[i] <= '9'
  }

  function Digit(d: nat): (c: char)
    requires d < 10
    ensures '0' <= c <= '9'
  {
    '0' + d as char
  }

  function Print(n: nat): (s: string)
    ensures s != [] && AllDigits(s)
  {
    if n < 10 then [Digit(n)] else Print(n / 10) + [Digit(n % 10)]
  }

  function Value(s: string): nat
    requires AllDigits(s)
  {
    if s == [] then 0 else 10 * Value(s[..|s| - 1]) + (s[|s| - 1] - '0') as nat
  }

  lemma {:induction false} ValueOfPrint(n: nat)
    ensures Value(Print(n)) == n
  {
    if n < 10 {
      assert Print(n)[..0] == [];
    } else {
      ValueOfPrint(n / 10);
      assert Print(n)[..|Print(n)| - 1] == Print(n / 10);
    }
  }

  /** Different numbers print differently. */
  lemma PrintIsInjective(m: nat, n: nat)
    requires Print(m) == Print(n)
    ensures m == n
  {
    ValueOfPrint(m);
    ValueOfPrint(n);
  }

  /** A number that ends at a mark can be read back: the mark is no digit. */
  lemma PrintUpToMark(m: nat, n: nat, mark: char, a: string, b: string)
    requires !('0' <= mark <= '9')
    requires Print(m) + [mark] + a == Print(n) + [mark] + b
    ensures m == n && a == b
  {
    var s := Print(m) + [mark] + a;
    assert s[..|Print(m)|] == Print(m) && s[..|Print(n)|] == Print(n);
    assert s[|Print(m)|] == mark && s[|Print(n)|] == mark;
    assert forall i | 0 <= i < |Print(m)| :: s[i] == Print(m)[i] && s[i] != mark;
    assert forall i | 0 <= i < |Print(n)| :: s[i] == Print(n)[i] && s[i] != mark;
    PrintIsInjective(m, n);
    assert a == s[|Print(m)| + 1..] && b == s[|Print(n)| + 1..];
  }
}
