/**
 The string a cart is identified by: the user, then product and quantity of each line in
 product order, in decimal with delimiters. It does not depend on the order of the lines and
 can be read back, so two carts share it exactly when user and contents agree.
 */
module CartKey {
  import opened Sorting

  datatype Line = Line(product: int, quantity: int)

  // ---------------------------------------------------------------- decimal

  function Digit(n: nat): char
    requires n < 10
  {
    "0123456789"[n]
  }

  function Decimal(n: nat): string {
    if n < 10 then [Digit(n)] else Decimal(n / 10) + [Digit(n % 10)]
  }

  function Itoa(n: int): string {
    if n < 0 then "-" + Decimal(-n) else Decimal(n)
  }

  function DigitValue(c: char): int {
    c as int - '0' as int
  }

  function ReadDecimal(s: string): int {
    if s == "" then 0 else 10 * ReadDecimal(s[..|s| - 1]) + DigitValue(s[|s| - 1])
  }

  function Atoi(s: string): int {
    if s != "" && s[0] == '-' then -ReadDecimal(s[1..]) else ReadDecimal(s)
  }

  predicate Plain(c: char) {
    '0' <= c <= '9' || c == '-'
  }

  lemma DigitIs(n: nat)
    requires n < 10
    ensures '0' <= Digit(n) <= '9' && DigitValue(Digit(n)) == n
  {
  }

  lemma {:induction false} DecimalReads(n: nat)
    ensures Decimal(n) != "" && ReadDecimal(Decimal(n)) == n
    ensures forall i :: 0 <= i < |Decimal(n)| ==> '0' <= Decimal(n)[i] <= '9'
  {
    DigitIs(n % 10);
    if n >= 10 {
      DecimalReads(n / 10);
      assert Decimal(n)[..|Decimal(n)| - 1] == Decimal(n / 10);
    } else {
      assert Decimal(n)[..0] == "";
    }
  }

  lemma SignedReads(d: string)
    requires d != "" && forall i :: 0 <= i < |d| ==> '0' <= d[i] <= '9'
    ensures Atoi("-" + d) == -ReadDecimal(d) && Atoi(d) == ReadDecimal(d)
    ensures AllPlain("-" + d) && AllPlain(d)
  {
    assert ("-" + d)[1..] == d;
    assert d[0] != '-';
  }

  predicate AllPlain(s: string) {
    forall i :: 0 <= i < |s| ==> Plain(s[i])
  }

  /** A printed number reads back, and uses no delimiter. */
  lemma ItoaReads(n: int)
    ensures Atoi(Itoa(n)) == n && AllPlain(Itoa(n))
  {
    var m := if n < 0 then -n else n;
    DecimalReads(m);
    SignedReads(Decimal(m));
  }

  // ---------------------------------------------------------------- lines by product

  function ByProduct(): Line -> int {
    (l: Line) => l.product
  }

  predicate DistinctProducts(ls: seq<Line>) {
    DistinctKeys(ls, ByProduct())
  }

  function SortLines(ls: seq<Line>): seq<Line> {
    SortBy(ls, ByProduct())
  }

  // ---------------------------------------------------------------- the text

  function LineText(l: Line): string {
    "|" + Itoa(l.product) + ":" + Itoa(l.quantity)
  }

  function LinesText(ls: seq<Line>): string {
    if ls == [] then "" else LineText(ls[0]) + LinesText(ls[1..])
  }

  function CartText(user: int, ls: seq<Line>): string {
    "u:" + Itoa(user) + LinesText(SortLines(ls))
  }

  lemma {:induction false} LinesTextSnoc(ls: seq<Line>, l: Line)
    ensures LinesText(ls + [l]) == LinesText(ls) + LineText(l)
  {
    if ls == [] {
      assert ls + [l] == [l];
      assert LinesText([l][1..]) == "";
    } else {
      assert (ls + [l])[1..] == ls[1..] + [l];
      LinesTextSnoc(ls[1..], l);
    }
  }

  lemma LinesTextStep(head: string, ls: seq<Line>, i: nat)
    requires i < |ls|
    ensures head + LinesText(ls[..i + 1]) == head + LinesText(ls[..i]) + LineText(ls[i])
  {
    assert ls[..i + 1] == ls[..i] + [ls[i]];
    LinesTextSnoc(ls[..i], ls[i]);
  }

  /** Writes the text piece by piece, as it is fed to the hash. */
  method WriteCart(user: int, items: seq<Line>) returns (text: string)
    ensures text == CartText(user, items)
  {
    var sorted := SortLines(items);
    var head := "u:" + Itoa(user);
    text := head;
    assert sorted[..0] == [] && head + "" == head;
    for i := 0 to |sorted|
      invariant text == head + LinesText(sorted[..i])
    {
      LinesTextStep(head, sorted, i);
      text := text + LineText(sorted[i]);
    }
    assert sorted[..|sorted|] == sorted;
  }

  predicate EndsField(s: string) {
    s == "" || !Plain(s[0])
  }

  lemma FieldNotShorter(a: string, x: string, b: string, y: string)
    requires a + x == b + y && AllPlain(b) && EndsField(x)
    ensures |b| <= |a|
  {
    var s := a + x;
    assert forall i :: 0 <= i < |b| ==> s[i] == b[i];
    assert x != "" ==> s[|a|] == x[0];
  }

  /** A field of plain characters ends where the first delimiter stands. */
  lemma FieldUnique(a: string, x: string, b: string, y: string)
    requires a + x == b + y && AllPlain(a) && AllPlain(b) && EndsField(x) && EndsField(y)
    ensures a == b && x == y
  {
    FieldNotShorter(a, x, b, y);
    FieldNotShorter(b, y, a, x);
    assert a == (a + x)[..|a|] && b == (b + y)[..|b|];
    assert x == (a + x)[|a|..] && y == (b + y)[|b|..];
  }

  lemma ItoaInjective(m: int, n: int)
    requires Itoa(m) == Itoa(n)
    ensures m == n
  {
    ItoaReads(m);
    ItoaReads(n);
  }

  lemma NumberThenRest(m: int, x: string, n: int, y: string)
    requires Itoa(m) + x == Itoa(n) + y && EndsField(x) && EndsField(y)
    ensures m == n && x == y
  {
    ItoaReads(m);
    ItoaReads(n);
    FieldUnique(Itoa(m), x, Itoa(n), y);
    ItoaInjective(m, n);
  }

  lemma LinesEndField(ls: seq<Line>)
    ensures EndsField(LinesText(ls)) && (ls != [] ==> |LinesText(ls)| >= 1)
  {
    if ls != [] {
      assert LinesText(ls)[0] == '|';
    }
  }

  lemma LinesTextParts(ls: seq<Line>)
    requires ls != []
    ensures LinesText(ls)[1..] == Itoa(ls[0].product) + (":" + (Itoa(ls[0].quantity) + LinesText(ls[1..])))
  {
    var a, b, c := Itoa(ls[0].product), Itoa(ls[0].quantity), LinesText(ls[1..]);
    assert "|" + a + ":" + b + c == "|" + (a + (":" + (b + c)));
  }

  lemma {:induction false} LinesTextInjective(a: seq<Line>, b: seq<Line>)
    requires LinesText(a) == LinesText(b)
    ensures a == b
    decreases |a|
  {
    LinesEndField(a);
    LinesEndField(b);
    if a != [] && b != [] {
      LinesTextParts(a);
      LinesTextParts(b);
      LinesEndField(a[1..]);
      LinesEndField(b[1..]);
      var x, y := Itoa(a[0].quantity) + LinesText(a[1..]), Itoa(b[0].quantity) + LinesText(b[1..]);
      NumberThenRest(a[0].product, ":" + x, b[0].product, ":" + y);
      assert x == (":" + x)[1..] && y == (":" + y)[1..];
      NumberThenRest(a[0].quantity, LinesText(a[1..]), b[0].quantity, LinesText(b[1..]));
      LinesTextInjective(a[1..], b[1..]);
      assert a == [a[0]] + a[1..] && b == [b[0]] + b[1..];
    }
  }

  lemma DropHead(head: string, a: string, x: string)
    ensures (head + a + x)[|head|..] == a + x
  {
  }

  lemma TextParts(head: string, m: int, x: string, n: int, y: string)
    requires head + Itoa(m) + x == head + Itoa(n) + y && EndsField(x) && EndsField(y)
    ensures m == n && x == y
  {
    DropHead(head, Itoa(m), x);
    DropHead(head, Itoa(n), y);
    NumberThenRest(m, x, n, y);
  }

  lemma CartTextReads(u: int, a: seq<Line>, v: int, b: seq<Line>)
    requires CartText(u, a) == CartText(v, b)
    ensures u == v && SortLines(a) == SortLines(b)
  {
    LinesEndField(SortLines(a));
    LinesEndField(SortLines(b));
    TextParts("u:", u, LinesText(SortLines(a)), v, LinesText(SortLines(b)));
    LinesTextInjective(SortLines(a), SortLines(b));
  }

  /** Two carts of distinct products have the same text exactly when the user and the lines agree, in any order. */
  lemma SameTextIffSameCart(u: int, a: seq<Line>, v: int, b: seq<Line>)
    requires DistinctProducts(a) && DistinctProducts(b)
    ensures CartText(u, a) == CartText(v, b) <==> u == v && multiset(a) == multiset(b)
  {
    if CartText(u, a) == CartText(v, b) {
      CartTextReads(u, a, v, b);
      assert multiset(a) == multiset(SortLines(a)) == multiset(b);
    } else if multiset(a) == multiset(b) {
      DistinctPermuted(a, SortLines(a), ByProduct());
      OrderedUnique(SortLines(a), SortLines(b), ByProduct());
    }
  }
}
