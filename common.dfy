/** Shared vocabulary of the two expense apps: optional values, the payment
    method enumeration, calendar days and Python's ordering on strings. */
module Common {

  datatype Option<+T> = None | Some(value: T)

  /** The two payment methods offered by both apps ("Cash", "Card"). */
  datatype PaymentMethod = Cash | Card

  /** The text a payment method is stored and grouped under. */
  function MethodName(m: PaymentMethod): (s: string)
    ensures s == "Cash" <==> m == Cash
    ensures s == "Card" <==> m == Card
  {
    match m
    case Cash => "Cash"
    case Card => "Card"
  }

  /** A calendar date, as a day number; only its order matters here. */
  type Day = nat

  /** Python's `<` on `str`: lexicographic by code point, a proper prefix
      coming first. This is the order in which a pandas groupby lists keys. */
  predicate StrLt(a: string, b: string)
    decreases |a|
  {
    if |a| == 0 then |b| > 0
    else if |b| == 0 then false
    else if a[0] != b[0] then a[0] < b[0]
    else StrLt(a[1..], b[1..])
  }

  lemma {:induction false} StrLtIrreflexive(a: string)
    ensures !StrLt(a, a)
    decreases |a|
  {
    if |a| > 0 {
      StrLtIrreflexive(a[1..]);
    }
  }

  lemma {:induction false} StrLtAsymmetric(a: string, b: string)
    ensures !(StrLt(a, b) && StrLt(b, a))
    decreases |a|
  {
    if |a| > 0 && |b| > 0 && a[0] == b[0] {
      StrLtAsymmetric(a[1..], b[1..]);
    }
  }

  lemma {:induction false} StrLtTransitive(a: string, b: string, c: string)
    requires StrLt(a, b) && StrLt(b, c)
    ensures StrLt(a, c)
    decreases |a|
  {
    if |a| > 0 && a[0] == b[0] && b[0] == c[0] {
      StrLtTransitive(a[1..], b[1..], c[1..]);
    }
  }

  /** Any two different strings are ordered one way or the other. */
  lemma {:induction false} StrLtTotal(a: string, b: string)
    requires a != b
    ensures StrLt(a, b) || StrLt(b, a)
    decreases |a|
  {
    if |a| > 0 && |b| > 0 && a[0] == b[0] {
      assert a == [a[0]] + a[1..] && b == [b[0]] + b[1..];
      StrLtTotal(a[1..], b[1..]);
    }
  }
}
