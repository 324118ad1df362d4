/** Order numbers (a shop's prefix and its sequence) and the ids an order's
    payment attempts carry at Midtrans. Midtrans refuses an id it has seen, so
    what matters is that no two attempts of any two orders of a shop share one. */
module OrderIds {
  import opened Decimal

  predicate PrefixChar(c: char) {
    'A' <= c <= 'Z' || IsDigit(c)
  }

  /** order_prefix is 2 to 6 upper-case letters or digits. */
  predicate ValidPrefix(p: string) {
    2 <= |p| <= 6 && forall i :: 0 <= i < |p| ==> PrefixChar(p[i])
  }

  /** fmt.Sprintf("%s-%06d", prefix, n). */
  function OrderNumber(prefix: string, n: nat): string {
    prefix + "-" + Padded6(n)
  }

  /** ERG-000123 for the first attempt, ERG-000123-2 for the second. */
  function ProviderId(number: string, attempt: nat): string {
    if attempt > 1 then number + "-" + Itoa(attempt) else number
  }

  predicate NoDash(s: string) {
    forall i :: 0 <= i < |s| ==> s[i] != '-'
  }

  /** The first dash of a string splits it in one way only. */
  lemma SplitAtDash(a: string, b: string, c: string, d: string)
    requires NoDash(a) && NoDash(c) && a + "-" + b == c + "-" + d
    ensures a == c && b == d
  {
    var s := a + "-" + b;
    assert s[|a|] == '-' && s[|c|] == '-';
    assert forall i :: 0 <= i < |a| ==> s[i] == a[i] != '-';
    assert forall i :: 0 <= i < |c| ==> s[i] == c[i] != '-';
    assert a == s[..|a|] && c == s[..|c|];
    assert b == s[|a| + 1..] && d == s[|c| + 1..];
  }

  /** A sequence value is never reused, so neither is a number, whatever the
      prefix was when each order was placed. */
  lemma OrderNumberInjective(p: string, n: nat, q: string, m: nat)
    requires ValidPrefix(p) && ValidPrefix(q)
    requires OrderNumber(p, n) == OrderNumber(q, m)
    ensures p == q && n == m
  {
    SplitAtDash(p, Padded6(n), q, Padded6(m));
    ValueOfPadded6(n);
    ValueOfPadded6(m);
  }

  /** What follows the prefix's dash: the padded sequence value and, from the
      second attempt on, a dash and the attempt. */
  function Tail(n: nat, attempt: nat): string {
    if attempt > 1 then Padded6(n) + "-" + Itoa(attempt) else Padded6(n)
  }

  lemma ProviderIdShape(p: string, n: nat, attempt: nat)
    ensures ProviderId(OrderNumber(p, n), attempt) == p + "-" + Tail(n, attempt)
  {
    hide Padded6, Itoa;
    assert (p + "-" + Padded6(n)) + "-" + Itoa(attempt) == p + "-" + (Padded6(n) + "-" + Itoa(attempt));
  }

  lemma TailInjective(n: nat, k: nat, m: nat, l: nat)
    requires k >= 1 && l >= 1 && Tail(n, k) == Tail(m, l)
    ensures n == m && k == l
  {
    ValueOfPadded6(n);
    ValueOfPadded6(m);
    assert k > 1 ==> Tail(n, k)[|Padded6(n)|] == '-';
    assert l > 1 ==> Tail(m, l)[|Padded6(m)|] == '-';
    assert k == 1 ==> NoDash(Tail(n, k));
    assert l == 1 ==> NoDash(Tail(m, l));
    if k > 1 {
      SplitAtDash(Padded6(n), Itoa(k), Padded6(m), Itoa(l));
      ValueOfItoa(k);
      ValueOfItoa(l);
    }
  }

  /** The id of an attempt names its order and its number: no attempt of one
      order can be taken for another's. */
  lemma ProviderIdInjective(p: string, n: nat, k: nat, q: string, m: nat, l: nat)
    requires ValidPrefix(p) && ValidPrefix(q) && k >= 1 && l >= 1
    requires ProviderId(OrderNumber(p, n), k) == ProviderId(OrderNumber(q, m), l)
    ensures p == q && n == m && k == l
  {
    ProviderIdShape(p, n, k);
    ProviderIdShape(q, m, l);
    SplitAtDash(p, Tail(n, k), q, Tail(m, l));
    TailInjective(n, k, m, l);
  }

  /** A number reads prefix, dash, and at least six digits that write the sequence value;
      the first attempt goes by it, a later one by it, a dash and the attempt's number. */
  lemma NumbersRead(prefix: string, n: nat, attempt: nat)
    requires attempt >= 1
    ensures var number := OrderNumber(prefix, n);
            var digits := number[|prefix| + 1..];
            && number == prefix + "-" + digits && |digits| >= 6 && AllDigits(digits) && Value(digits) == n
    ensures var number, id := OrderNumber(prefix, n), ProviderId(OrderNumber(prefix, n), attempt);
            if attempt == 1 then id == number
            else
              && |id| > |number| && id[..|number| + 1] == number + "-"
              && var digits := id[|number| + 1..]; AllDigits(digits) && Value(digits) == attempt && digits[0] != '0'
  {
    ValueOfPadded6(n);
    ValueOfItoa(attempt);
    FirstDigit(attempt);
    hide Padded6, Itoa, Value;
    assert OrderNumber(prefix, n)[|prefix| + 1..] == Padded6(n);
    if attempt > 1 {
      var number := OrderNumber(prefix, n);
      assert ProviderId(number, attempt)[|number| + 1..] == Itoa(attempt);
    }
  }

  lemma {:induction false} FirstDigit(n: nat)
    requires n >= 1
    ensures Itoa(n)[0] != '0'
  {
    if n >= 10 {
      FirstDigit(n / 10);
    }
  }
}
