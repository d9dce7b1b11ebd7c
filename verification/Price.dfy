/** How the owner's reply to a quote card is read as a price, and how prices and days are
    printed (src/pionir/quotes.py), for replies in ASCII. The reply grammar is a regular
    expression matched against the whole reply; here it is the relation `Reads`. */
module Price {
  import opened Wrappers

  // ----- characters

  predicate Digit(c: char) { '0' <= c <= '9' }

  predicate Space(c: char) { '\t' <= c <= '\r' || 28 as char <= c <= ' ' }

  predicate Digits(s: string) { forall i | 0 <= i < |s| :: Digit(s[i]) }

  predicate Spaces(s: string) { forall i | 0 <= i < |s| :: Space(s[i]) }

  predicate NoDigits(s: string) { forall i | 0 <= i < |s| :: !Digit(s[i]) }

  function LowerChar(c: char): char { if 'A' <= c <= 'Z' then c - 'A' + 'a' else c }

  function Lower(s: string): (r: string)
    ensures |r| == |s| && forall i | 0 <= i < |s| :: r[i] == LowerChar(s[i])
  {
    if s == "" then "" else Lower(s[..|s| - 1]) + [LowerChar(s[|s| - 1])]
  }

  // ----- the grammar

  /** `\d{1,3}(?:,\d{3})+` */
  predicate Grouped(a: string) {
    |a| >= 5 && a[|a| - 4] == ',' && Digits(a[|a| - 3..])
    && var front := a[..|a| - 4]; (|front| <= 3 && Digits(front)) || Grouped(front)
  }

  predicate IsAmount(a: string) { Grouped(a) || (a != "" && Digits(a)) }

  /** `\s*(?:usd|dollars?)`, in any case. */
  predicate IsCurrency(s: string) { exists n :: 0 <= n <= |s| && CurrencyAt(s, n) }

  predicate CurrencyAt(s: string, n: nat)
    requires n <= |s|
  {
    Spaces(s[..n]) && IsCurrencyWord(Lower(s[n..]))
  }

  predicate IsCurrencyWord(w: string) { w == "usd" || w == "dollar" || w == "dollars" }

  predicate IsUnit(u: string) {
    || u == "d" || u == "day" || u == "days"
    || (exists n :: 8 < n <= |u| && BusinessAt(u, n))
  }

  predicate BusinessAt(u: string, n: nat)
    requires 8 < n <= |u|
  {
    u[..8] == "business" && Spaces(u[8..n]) && (u[n..] == "day" || u[n..] == "days")
  }

  /** `\s*(?:d|days?|business\s+days?)\.?`, in any case. */
  predicate IsUnitTail(t: string) { exists n, m :: 0 <= n <= m <= |t| && UnitTailAt(t, n, m) }

  predicate UnitTailAt(t: string, n: nat, m: nat)
    requires n <= m <= |t|
  {
    Spaces(t[..n]) && IsUnit(Lower(t[n..m])) && (t[m..] == "" || t[m..] == ".")
  }

  /** The pieces a reply falls into; an optional piece that is missing is empty. */
  datatype Reading = Reading(dollar: string, gap: string, amount: string, cents: string,
                             currency: string, daysGap: string, days: string, unit: string) {
    predicate Valid() {
      && (dollar == "" || dollar == "$") && Spaces(gap) && IsAmount(amount)
      && (cents == "" || (|cents| == 2 && Digits(cents)))
      && (currency == "" || IsCurrency(currency))
      && (days == "" || (daysGap != "" && Spaces(daysGap) && |days| <= 3 && Digits(days) && IsUnitTail(unit)))
    }

    function Tail(): string { currency + if days == "" then "" else daysGap + days + unit }

    function Rest(): string { (if cents == "" then "" else "." + cents) + Tail() }

    function Text(): string { dollar + gap + amount + Rest() }

    function Cents(): nat { Number(amount) * 100 + Number(cents) }

    function Days(): Option<nat> { if days == "" then None else Some(Number(days)) }
  }

  predicate Reads(text: string, r: Reading) { r.Valid() && r.Text() == text }

  function DigitValue(c: char): nat
    requires Digit(c)
  {
    c as int - '0' as int
  }

  /** `int(s.replace(",", ""))` */
  function Number(s: string): nat {
    if s == "" then 0
    else
      var front, c := Number(s[..|s| - 1]), s[|s| - 1];
      if Digit(c) then 10 * front + DigitValue(c) else front
  }

  // ----- one text, one reading

  /** From the first digit on. */
  function FromDigit(s: string): string {
    if s == "" || Digit(s[0]) then s else FromDigit(s[1..])
  }

  function Run(s: string, commas: bool): string {
    if s == "" || !(Digit(s[0]) || (commas && s[0] == ',')) then "" else [s[0]] + Run(s[1..], commas)
  }

  /** The digits, the cents and the days of a text, found without the grammar. */
  function AmountOf(text: string): string { Run(FromDigit(text), true) }

  function AfterAmount(text: string): string
  {
    var from := FromDigit(text);
    if |AmountOf(text)| <= |from| then from[|AmountOf(text)|..] else ""
  }

  function CentsOf(rest: string): string { if |rest| >= 3 && rest[0] == '.' then rest[1..3] else "" }

  function TailOf(rest: string): string { if |rest| >= 3 && rest[0] == '.' then rest[3..] else rest }

  function DaysOf(tail: string): string { Run(FromDigit(tail), false) }

  lemma {:induction false} SkipsTo(before: string, after: string)
    requires NoDigits(before)
    ensures FromDigit(before + after) == FromDigit(after)
  {
    if before == "" {
      assert before + after == after;
    } else {
      assert (before + after)[1..] == before[1..] + after;
      SkipsTo(before[1..], after);
    }
  }

  lemma {:induction false} RunsTo(run: string, rest: string, commas: bool)
    requires forall i | 0 <= i < |run| :: Digit(run[i]) || (commas && run[i] == ',')
    requires rest == "" || !(Digit(rest[0]) || (commas && rest[0] == ','))
    ensures Run(run + rest, commas) == run
  {
    if run == "" {
      assert run + rest == rest;
    } else {
      assert (run + rest)[1..] == run[1..] + rest;
      RunsTo(run[1..], rest, commas);
      assert run == [run[0]] + run[1..];
    }
  }

  lemma {:induction false} AmountIsRun(a: string)
    requires IsAmount(a)
    ensures a != "" && Digit(a[0]) && forall i | 0 <= i < |a| :: Digit(a[i]) || a[i] == ','
  {
    if Grouped(a) {
      var front := a[..|a| - 4];
      if Grouped(front) {
        AmountIsRun(front);
      }
      assert a == front + [','] + a[|a| - 3..];
    }
  }

  lemma WordHasNoDigits(s: string, word: string)
    requires Lower(s) == word && NoDigits(word)
    ensures NoDigits(s)
  {
    forall i | 0 <= i < |s| ensures !Digit(s[i]) {
      assert word[i] == LowerChar(s[i]);
    }
  }

  lemma LikeItsLower(word: string)
    requires Lower(word) != "" && NoDigits(Lower(word)) && (Lower(word)[0] == 'u' || Lower(word)[0] == 'd')
    ensures word != "" && NoDigits(word) && word[0] != '.' && word[0] != ','
  {
    WordHasNoDigits(word, Lower(word));
    assert Lower(word)[0] == LowerChar(word[0]);
  }

  lemma WordLetters(w: string)
    requires IsCurrencyWord(w)
    ensures w != "" && NoDigits(w) && (w[0] == 'u' || w[0] == 'd')
  {
  }

  lemma AfterSpaces(spaces: string, word: string)
    requires Spaces(spaces) && NoDigits(word) && word != "" && word[0] != '.' && word[0] != ','
    ensures var s := spaces + word;
      NoDigits(s) && s[0] != '.' && s[0] != ','
  {
    if spaces != "" {
      assert Space(spaces[0]);
    }
  }

  lemma CurrencyShape(s: string)
    requires IsCurrency(s)
    ensures s != "" && NoDigits(s) && s[0] != '.' && s[0] != ','
  {
    var n :| 0 <= n <= |s| && CurrencyAt(s, n);
    WordLetters(Lower(s[n..]));
    LikeItsLower(s[n..]);
    AfterSpaces(s[..n], s[n..]);
    assert s == s[..n] + s[n..];
  }

  lemma UnitHasNoDigits(u: string)
    requires IsUnit(u)
    ensures NoDigits(u)
  {
    if !(u == "d" || u == "day" || u == "days") {
      var n :| 8 < n <= |u| && BusinessAt(u, n);
      assert u == u[..8] + u[8..n] + u[n..];
    }
  }

  lemma UnitWord(unit: string)
    requires IsUnit(Lower(unit))
    ensures NoDigits(unit)
  {
    UnitHasNoDigits(Lower(unit));
    WordHasNoDigits(unit, Lower(unit));
  }

  lemma ThreeParts(t: string, n: nat, m: nat)
    requires n <= m <= |t| && NoDigits(t[..n]) && NoDigits(t[n..m]) && NoDigits(t[m..])
    ensures NoDigits(t)
  {
    forall i | 0 <= i < |t| ensures !Digit(t[i]) {
      if i < n {
        assert t[i] == t[..n][i];
      } else if i < m {
        assert t[i] == t[n..m][i - n];
      } else {
        assert t[i] == t[m..][i - m];
      }
    }
  }

  lemma SpacesAreNoDigits(s: string)
    requires Spaces(s)
    ensures NoDigits(s)
  {
  }

  lemma UnitTailHasNoDigits(t: string)
    requires IsUnitTail(t)
    ensures NoDigits(t)
  {
    var n, m :| 0 <= n <= m <= |t| && UnitTailAt(t, n, m);
    UnitWord(t[n..m]);
    SpacesAreNoDigits(t[..n]);
    assert NoDigits(t[m..]);
    ThreeParts(t, n, m);
  }

  lemma TailShape(r: Reading)
    requires r.Valid()
    ensures r.Tail() == "" || (!Digit(r.Tail()[0]) && r.Tail()[0] != '.' && r.Tail()[0] != ',')
    ensures DaysOf(r.Tail()) == r.days
  {
    if r.currency != "" {
      CurrencyShape(r.currency);
    }
    if r.days == "" {
      assert r.Tail() == r.currency + "";
      SkipsTo(r.currency, "");
    } else {
      UnitTailHasNoDigits(r.unit);
      assert Space(r.daysGap[0]);
      var end := r.days + r.unit;
      assert r.Tail() == (r.currency + r.daysGap) + end;
      SkipsTo(r.currency + r.daysGap, end);
      assert FromDigit(end) == end;
      RunsTo(r.days, r.unit, false);
    }
  }

  lemma RestShape(r: Reading)
    requires r.Valid()
    ensures r.Rest() == "" || (!Digit(r.Rest()[0]) && r.Rest()[0] != ',')
    ensures CentsOf(r.Rest()) == r.cents && TailOf(r.Rest()) == r.Tail()
  {
    TailShape(r);
    if r.cents == "" {
      assert r.Rest() == r.Tail();
    } else {
      assert r.Rest() == ['.'] + r.cents + r.Tail();
    }
  }

  lemma AmountForced(r: Reading)
    requires r.Valid()
    ensures AmountOf(r.Text()) == r.amount && AfterAmount(r.Text()) == r.Rest()
  {
    RestShape(r);
    AmountIsRun(r.amount);
    var front, back := r.dollar + r.gap, r.amount + r.Rest();
    assert r.Text() == front + back;
    SkipsTo(front, back);
    assert FromDigit(back) == back;
    RunsTo(r.amount, r.Rest(), true);
    assert back[|r.amount|..] == r.Rest();
  }

  /** Whatever reading matches, its amount, cents and days are the ones the text shows. */
  lemma ReadingIsForced(text: string, r: Reading)
    requires Reads(text, r)
    ensures r.amount == AmountOf(text)
    ensures r.cents == CentsOf(AfterAmount(text))
    ensures r.days == DaysOf(TailOf(AfterAmount(text)))
  {
    AmountForced(r);
    RestShape(r);
    TailShape(r);
  }

  /** The grammar is unambiguous: a reply has at most one price and at most one delivery time. */
  lemma Unambiguous(text: string, r: Reading, other: Reading)
    requires Reads(text, r) && Reads(text, other)
    ensures r.Cents() == other.Cents() && r.Days() == other.Days()
  {
    ReadingIsForced(text, r);
    ReadingIsForced(text, other);
  }

  // ----- printing

  function Char(d: nat): (c: char)
    requires d < 10
    ensures Digit(c) && DigitValue(c) == d
  {
    '0' + d as char
  }

  function Decimal(n: nat): string {
    if n < 10 then [Char(n)] else Decimal(n / 10) + [Char(n % 10)]
  }

  /** Three digits, with leading zeros. */
  function Three(n: nat): string
    requires n < 1000
  {
    [Char(n / 100), Char(n / 10 % 10), Char(n % 10)]
  }

  function Two(n: nat): string
    requires n < 100
  {
    [Char(n / 10), Char(n % 10)]
  }

  /** `f"{n:,}"` */
  function Commas(n: nat): string {
    if n < 1000 then Decimal(n) else Commas(n / 1000) + "," + Three(n % 1000)
  }

  function Usd(cents: nat): string {
    "$" + Commas(cents / 100) + if cents % 100 == 0 then "" else "." + Two(cents % 100)
  }

  function DaysText(days: nat): string { Decimal(days) + " business day" + if days == 1 then "" else "s" }

  lemma NumberThen(front: string, c: char)
    ensures Number(front + [c]) == if Digit(c) then 10 * Number(front) + DigitValue(c) else Number(front)
  {
    assert (front + [c])[..|front|] == front;
  }

  lemma {:induction false} DecimalReads(n: nat)
    ensures Digits(Decimal(n)) && Decimal(n) != "" && Number(Decimal(n)) == n
    ensures n < 100 ==> |Decimal(n)| <= 2
    ensures n < 1000 ==> |Decimal(n)| <= 3
  {
    if n < 10 {
      assert Decimal(n)[..0] == "";
    } else {
      DecimalReads(n / 10);
      NumberThen(Decimal(n / 10), Char(n % 10));
    }
  }

  lemma ThreeMore(front: string, n: nat)
    requires n < 1000
    ensures Number(front + "," + Three(n)) == 1000 * Number(front) + n
  {
    var a, b, c := Char(n / 100), Char(n / 10 % 10), Char(n % 10);
    NumberThen(front, ',');
    NumberThen(front + ",", a);
    NumberThen(front + "," + [a], b);
    NumberThen(front + "," + [a] + [b], c);
    assert front + "," + Three(n) == front + "," + [a] + [b] + [c];
  }

  lemma {:induction false} CommasRead(n: nat)
    ensures IsAmount(Commas(n)) && Number(Commas(n)) == n
    ensures n < 1000 ==> Digits(Commas(n)) && |Commas(n)| <= 3
    ensures n >= 1000 ==> Grouped(Commas(n))
  {
    if n < 1000 {
      DecimalReads(n);
    } else {
      var front, last := Commas(n / 1000), Three(n % 1000);
      CommasRead(n / 1000);
      ThreeMore(front, n % 1000);
      AmountIsRun(front);
      var a := front + "," + last;
      assert a[..|a| - 4] == front && a[|a| - 3..] == last && a[|a| - 4] == ',';
    }
  }

  lemma TwoReads(n: nat)
    requires n < 100
    ensures Number(Two(n)) == n && Digits(Two(n))
  {
    NumberThen("", Char(n / 10));
    NumberThen([Char(n / 10)], Char(n % 10));
    assert Two(n) == [Char(n / 10)] + [Char(n % 10)] && "" + [Char(n / 10)] == [Char(n / 10)];
  }

  function CentsPart(cents: nat): string { if cents % 100 == 0 then "" else Two(cents % 100) }

  /** Every amount of cents, as printed, reads as itself - and as nothing else. */
  lemma PriceRoundTrip(cents: nat, r: Reading)
    ensures exists reading :: Reads(Usd(cents), reading)
    ensures Reads(Usd(cents), r) ==> r.Cents() == cents && r.Days() == None
  {
    var g := PrintedPrice(cents);
    if Reads(Usd(cents), r) {
      Unambiguous(Usd(cents), g, r);
    }
  }

  lemma PrintedPrice(cents: nat) returns (g: Reading)
    ensures Reads(Usd(cents), g) && g.Cents() == cents && g.Days() == None
  {
    CommasRead(cents / 100);
    TwoReads(cents % 100);
    g := Reading("$", "", Commas(cents / 100), CentsPart(cents), "", "", "", "");
    ReassociatePrice(Commas(cents / 100), if g.cents == "" then "" else "." + g.cents);
  }

  lemma ReassociatePrice(amount: string, cents: string)
    ensures "$" + "" + amount + (cents + ("" + "")) == "$" + amount + cents
  {
  }

  lemma BusinessDay(u: string, day: string)
    requires u == "business" + " " + day && (day == "day" || day == "days")
    ensures |u| > 9 && BusinessAt(u, 9)
  {
    assert u[..8] == "business" && u[8..9] == " " && u[9..] == day;
  }

  lemma UnitReads(one: bool)
    ensures IsUnitTail(" business day" + if one then "" else "s")
  {
    var t := " business day" + if one then "" else "s";
    var u := t[1..];
    assert Lower(u) == u;
    BusinessDay(u, if one then "day" else "days");
    assert t[1..|t|] == u && t[|t|..] == "";
    assert UnitTailAt(t, 1, |t|);
  }

  /** ... and so does a price with one to three digits of days. */
  lemma QuoteRoundTrip(cents: nat, days: nat, r: Reading)
    requires days < 1000
    ensures exists reading :: Reads(Usd(cents) + " " + DaysText(days), reading)
    ensures Reads(Usd(cents) + " " + DaysText(days), r) ==> r.Cents() == cents && r.Days() == Some(days)
  {
    var g := PrintedQuote(cents, days);
    if Reads(Usd(cents) + " " + DaysText(days), r) {
      Unambiguous(Usd(cents) + " " + DaysText(days), g, r);
    }
  }

  lemma PrintedQuote(cents: nat, days: nat) returns (g: Reading)
    requires days < 1000
    ensures Reads(Usd(cents) + " " + DaysText(days), g) && g.Cents() == cents && g.Days() == Some(days)
  {
    CommasRead(cents / 100);
    TwoReads(cents % 100);
    DecimalReads(days);
    UnitReads(days == 1);
    var unit := " business day" + if days == 1 then "" else "s";
    g := Reading("$", "", Commas(cents / 100), CentsPart(cents), "", " ", Decimal(days), unit);
    DaysTextIs(days);
    Reassociate(Commas(cents / 100), if g.cents == "" then "" else "." + g.cents, Decimal(days), unit);
  }

  lemma DaysTextIs(days: nat)
    ensures DaysText(days) == Decimal(days) + (" business day" + if days == 1 then "" else "s")
  {
  }

  lemma Reassociate(amount: string, cents: string, days: string, unit: string)
    ensures "$" + "" + amount + (cents + ("" + (" " + days + unit))) == "$" + amount + cents + " " + (days + unit)
  {
  }

  // ----- what a reply is worth

  const MIN_CENTS := 1_000
  const MAX_CENTS := 5_000_000
  const MAX_DAYS := 180

  datatype Price = Price(cents: nat, days: Option<nat>)

  datatype Answer = Accepted(price: Price) | EmptyReply | NotAPrice | PriceOutOfRange | DaysOutOfRange

  function StripLeft(s: string): string { if s != "" && Space(s[0]) then StripLeft(s[1..]) else s }

  function StripRight(s: string): string { if s != "" && Space(s[|s| - 1]) then StripRight(s[..|s| - 1]) else s }

  function Strip(s: string): string { StripRight(StripLeft(s)) }

  /** `parse_reply`. */
  ghost function ParseReply(text: string): Answer {
    var stripped := Strip(text);
    if stripped == "" then EmptyReply
    else if r :| Reads(stripped, r) then
      if !(MIN_CENTS <= r.Cents() <= MAX_CENTS) then PriceOutOfRange
      else if r.Days().Some? && !(1 <= r.Days().value <= MAX_DAYS) then DaysOutOfRange
      else Accepted(Price(r.Cents(), r.Days()))
    else NotAPrice
  }

  function Print(p: Price): string {
    Usd(p.cents) + if p.days.None? then "" else " " + DaysText(p.days.value)
  }

  function Last(s: string): char
    requires s != ""
  {
    s[|s| - 1]
  }

  lemma PrintIsStripped(p: Price)
    ensures Strip(Print(p)) == Print(p) && Print(p) != ""
  {
    var text := Print(p);
    CommasRead(p.cents / 100);
    AmountIsRun(Commas(p.cents / 100));
    TwoReads(p.cents % 100);
    assert text[0] == '$';
    if p.days.None? {
      assert text == Usd(p.cents);
      var amount := Commas(p.cents / 100);
      assert Last(Usd(p.cents)) == if p.cents % 100 == 0 then Last(amount) else Last(Two(p.cents % 100));
    } else {
      assert Last(text) == Last(DaysText(p.days.value));
      assert Last(text) == 'y' || Last(text) == 's';
    }
  }

  /** Exactly what is accepted: a price in range, printed or typed in any way the grammar reads. */
  lemma WhatIsAccepted(text: string, p: Price)
    ensures ParseReply(text) == Accepted(p) <==>
      && (exists r :: Reads(Strip(text), r) && r.Cents() == p.cents && r.Days() == p.days)
      && 10 * 100 <= p.cents <= 50_000 * 100 && (p.days.Some? ==> 1 <= p.days.value <= 180)
  {
    var stripped := Strip(text);
    if r :| Reads(stripped, r) {
      AmountIsRun(r.amount);
      forall other | Reads(stripped, other) ensures other.Cents() == r.Cents() && other.Days() == r.Days() {
        Unambiguous(stripped, r, other);
      }
    }
  }

  /** Printing an accepted reply and reading it again changes nothing. */
  lemma ReparseIsIdentity(text: string)
    requires ParseReply(text).Accepted?
    ensures ParseReply(Print(ParseReply(text).price)) == ParseReply(text)
  {
    var p := ParseReply(text).price;
    WhatIsAccepted(text, p);
    PrintIsStripped(p);
    var g := PrintReads(p);
    WhatIsAccepted(Print(p), p);
  }

  lemma PrintReads(p: Price) returns (g: Reading)
    requires p.days.Some? ==> p.days.value < 1000
    ensures Reads(Print(p), g) && g.Cents() == p.cents && g.Days() == p.days
  {
    if p.days.None? {
      g := PrintedPrice(p.cents);
      assert Print(p) == Usd(p.cents);
    } else {
      g := PrintedQuote(p.cents, p.days.value);
      assert Print(p) == Usd(p.cents) + " " + DaysText(p.days.value);
    }
  }
}
