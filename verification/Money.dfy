/** Decimal text in and out of integer centavos: the target's pair, the harness's pair, and
    the proof that they are the same two functions. */
module Money {
  import opened Options

  predicate IsDigit(c: char) { '0' <= c <= '9' }

  predicate AllDigits(s: string) { forall i :: 0 <= i < |s| ==> IsDigit(s[i]) }

  function DigitChar(d: nat): char
    requires d < 10
  {
    '0' + d as char
  }

  function DigitValue(c: char): nat
    requires IsDigit(c)
  {
    (c - '0') as nat
  }

  /** The integer a run of digits denotes. */
  function ValueOf(s: string): nat
    requires AllDigits(s)
  {
    if s == [] then 0 else ValueOf(s[..|s| - 1]) * 10 + DigitValue(s[|s| - 1])
  }

  /** An integer's digits, without leading zeros. */
  function DigitsOf(n: nat): (s: string)
    ensures s != [] && AllDigits(s) && ValueOf(s) == n
    ensures n >= 10 ==> s[0] != '0' && |s| >= 2
    ensures n < 10 ==> |s| == 1
  {
    if n < 10 then [DigitChar(n)] else DigitsOf(n / 10) + [DigitChar(n % 10)]
  }

  function PadStart(s: string, width: nat): string
    decreases width - |s|
  {
    if |s| >= width then s else PadStart("0" + s, width)
  }

  function PadEnd(s: string, width: nat): (r: string)
    ensures AllDigits(s) ==> AllDigits(r)
    ensures |r| == if |s| >= width then |s| else width
    decreases width - |s|
  {
    if |s| >= width then s else PadEnd(s + "0", width)
  }

  function Abs(n: int): nat { if n < 0 then -n else n }

  /* ---- The target's pair ---- */

  /** An optional minus, at least one digit, and at most two decimals after a point. */
  datatype Pesos = Pesos(negative: bool, pesos: string, decimals: string) {
    predicate Valid() { pesos != [] && AllDigits(pesos) && AllDigits(decimals) && |decimals| <= 2 }

    function Text(): string {
      (if negative then "-" else "") + pesos + if decimals == [] then "" else "." + decimals
    }

    function Centavos(): int
      requires Valid()
    {
      var magnitude: int := ValueOf(pesos + PadEnd(decimals, 2));
      if negative then -magnitude else magnitude
    }
  }

  /** The first point of the text, or its length. */
  function PointOf(s: string): (i: nat)
    ensures i <= |s| && (forall j :: 0 <= j < i ==> s[j] != '.') && (i < |s| ==> s[i] == '.')
  {
    if s == [] || s[0] == '.' then 0 else 1 + PointOf(s[1..])
  }

  function MatchBody(negative: bool, body: string): (r: Option<Pesos>)
    ensures r.Some? ==> r.value.Valid() && r.value.negative == negative && Body(r.value) == body
  {
    var i := PointOf(body);
    var pesos, decimals := body[..i], if i < |body| then body[i + 1..] else [];
    if pesos == [] || !AllDigits(pesos) || !AllDigits(decimals) || |decimals| > 2 || (i < |body| && decimals == [])
    then None
    else Some(Pesos(negative, pesos, decimals))
  }

  lemma SignAndBody(text: string)
    ensures forall p: Pesos :: p.Text() == (if p.negative then "-" else "") + Body(p)
    ensures text != [] ==> text == [text[0]] + text[1..]
  {
  }

  /** Matches the PESOS grammar. */
  function Match(text: string): (r: Option<Pesos>)
    ensures r.Some? ==> r.value.Valid() && r.value.Text() == text
  {
    SignAndBody(text);
    if text != [] && text[0] == '-' then MatchBody(true, text[1..]) else MatchBody(false, text)
  }

  /** The grammar is unambiguous and the matcher finds every text of it. */
  lemma MatchIsComplete(p: Pesos)
    requires p.Valid()
    ensures Match(p.Text()) == Some(p)
  {
    var body := Body(p);
    BodySplits(p);
    assert MatchBody(p.negative, body) == Some(p);
    assert IsDigit(p.pesos[0]) && body[0] == p.pesos[0];
    if p.negative {
      assert p.Text() == "-" + body;
      assert p.Text()[1..] == body;
    } else {
      assert p.Text() == body;
    }
  }

  function Body(p: Pesos): string { p.pesos + if p.decimals == [] then "" else "." + p.decimals }

  lemma BodySplits(p: Pesos)
    requires p.Valid()
    ensures var body := Body(p);
            var i := PointOf(body);
            && i == |p.pesos| && body[..i] == p.pesos
            && (i < |body| <==> p.decimals != []) && (i < |body| ==> body[i + 1..] == p.decimals)
  {
    var body := Body(p);
    assert forall j :: 0 <= j < |p.pesos| ==> body[j] == p.pesos[j] && IsDigit(p.pesos[j]);
    assert p.decimals != [] ==> body[|p.pesos|] == '.' && body[|p.pesos| + 1..] == p.decimals;
  }

  function CentavosFromDb(text: string): Option<int> {
    match Match(text)
    case None => None
    case Some(p) => Some(p.Centavos())
  }

  function ApiString(centavos: int): string {
    var digits := PadStart(DigitsOf(Abs(centavos)), 3);
    PadStartWidens(DigitsOf(Abs(centavos)), 3);
    (if centavos < 0 then "-" else "") + digits[..|digits| - 2] + "." + digits[|digits| - 2..]
  }

  lemma PadStartWidens(s: string, width: nat)
    requires AllDigits(s)
    ensures var r := PadStart(s, width);
            && AllDigits(r) && ValueOf(r) == ValueOf(s)
            && |r| == (if |s| >= width then |s| else width)
    decreases width - |s|
  {
    if |s| < width {
      LeadingZero(s);
      PadStartWidens("0" + s, width);
    }
  }

  lemma {:induction false} LeadingZero(s: string)
    requires AllDigits(s)
    ensures ValueOf("0" + s) == ValueOf(s)
  {
    if s != [] {
      var n := |s| - 1;
      LeadingZero(s[..n]);
      assert ("0" + s)[..n + 1] == "0" + s[..n];
    }
  }

  /** Three digits or more, cut before the last two. */
  lemma Cut(negative: bool, digits: string)
    requires AllDigits(digits) && |digits| >= 3
    ensures var p := Pesos(negative, digits[..|digits| - 2], digits[|digits| - 2..]);
            var value: int := ValueOf(digits);
            && p.Valid() && |p.decimals| == 2 && p.Centavos() == (if negative then -value else value)
            && p.Text() == (if negative then "-" else "") + digits[..|digits| - 2] + "." + digits[|digits| - 2..]
  {
    var p := Pesos(negative, digits[..|digits| - 2], digits[|digits| - 2..]);
    assert p.pesos + p.decimals == digits;
    assert PadEnd(p.decimals, 2) == p.decimals;
  }

  /** The printer's text as the grammar reads it: two decimals, no needless zeros. */
  function Canonical(centavos: int): (p: Pesos)
    ensures p.Valid() && |p.decimals| == 2 && p.Text() == ApiString(centavos) && p.Centavos() == centavos
  {
    var digits := PadStart(DigitsOf(Abs(centavos)), 3);
    PadStartWidens(DigitsOf(Abs(centavos)), 3);
    Cut(centavos < 0, digits);
    Pesos(centavos < 0, digits[..|digits| - 2], digits[|digits| - 2..])
  }

  /** Parsing undoes printing, for every integer. */
  lemma ParseUndoesPrint(centavos: int)
    ensures CentavosFromDb(ApiString(centavos)) == Some(centavos)
  {
    MatchIsComplete(Canonical(centavos));
  }

  /** So two amounts print alike only when they are the same. */
  lemma PrintIsInjective(a: int, b: int)
    ensures ApiString(a) == ApiString(b) <==> a == b
  {
    ParseUndoesPrint(a);
    ParseUndoesPrint(b);
  }

  predicate IsCanonical(p: Pesos) {
    && p.Valid() && |p.decimals| == 2
    && (|p.pesos| > 1 ==> p.pesos[0] != '0')
    && !(p.negative && p.Centavos() == 0)
  }

  lemma {:induction false} DigitsOfValue(s: string)
    requires AllDigits(s) && s != [] && (|s| > 1 ==> s[0] != '0')
    ensures DigitsOf(ValueOf(s)) == s
  {
    var n := |s| - 1;
    if n > 0 {
      DigitsOfValue(s[..n]);
      NoLeadingZeroIsPositive(s[..n]);
      assert ValueOf(s) / 10 == ValueOf(s[..n]) && ValueOf(s) % 10 == DigitValue(s[n]);
    }
  }

  lemma {:induction false} NoLeadingZeroIsPositive(s: string)
    requires AllDigits(s) && s != [] && s[0] != '0'
    ensures ValueOf(s) >= 1
  {
    if |s| > 1 {
      NoLeadingZeroIsPositive(s[..|s| - 1]);
    }
  }

  /** Printing undoes parsing exactly on the printer's own texts. */
  lemma PrintUndoesParseIffCanonical(p: Pesos)
    requires p.Valid()
    ensures ApiString(p.Centavos()) == p.Text() <==> IsCanonical(p)
  {
    var c := Canonical(p.Centavos());
    MatchIsComplete(p);
    MatchIsComplete(c);
    CanonicalIsCanonical(p.Centavos());
    if IsCanonical(p) {
      CanonicalIsUnique(p);
    }
  }

  lemma CanonicalIsCanonical(centavos: int)
    ensures IsCanonical(Canonical(centavos))
  {
    var raw := DigitsOf(Abs(centavos));
    PadStartOfDigits(raw);
  }

  lemma PadStartOfDigits(s: string)
    requires s != []
    ensures PadStart(s, 3) == if |s| == 1 then "00" + s else if |s| == 2 then "0" + s else s
  {
    if |s| == 1 {
      assert "0" + ("0" + s) == "00" + s;
    }
  }

  /** One canonical text for each amount. */
  lemma CanonicalIsUnique(p: Pesos)
    requires IsCanonical(p)
    ensures p == Canonical(p.Centavos())
  {
    var digits := p.pesos + p.decimals;
    assert PadEnd(p.decimals, 2) == p.decimals;
    assert Abs(p.Centavos()) == ValueOf(digits);
    PaddedDigits(digits);
    assert digits[..|digits| - 2] == p.pesos && digits[|digits| - 2..] == p.decimals;
  }

  /** At least three digits, none of them needlessly zero, are the padded digits of their value. */
  lemma PaddedDigits(digits: string)
    requires AllDigits(digits) && |digits| >= 3 && (|digits| > 3 ==> digits[0] != '0')
    ensures PadStart(DigitsOf(ValueOf(digits)), 3) == digits
  {
    if digits[0] != '0' {
      DigitsOfValue(digits);
    } else {
      assert digits == "0" + digits[1..];
      LeadingZero(digits[1..]);
      var rest := digits[1..];
      if rest[0] != '0' {
        DigitsOfValue(rest);
      } else {
        assert rest == "0" + rest[1..];
        LeadingZero(rest[1..]);
        DigitsOfValue(rest[1..]);
        assert digits == "00" + rest[1..];
      }
      PadStartOfDigits(DigitsOf(ValueOf(digits)));
    }
  }

  /* ---- The harness's pair ---- */

  function MoneyOf(centavos: int): string {
    var magnitude := Abs(centavos);
    (if centavos < 0 then "-" else "") + DigitsOf(magnitude / 100) + "." + PadStart(DigitsOf(magnitude % 100), 2)
  }

  lemma HundredSplit(n: nat)
    ensures n / 100 == n / 10 / 10
    ensures n % 100 / 10 == n / 10 % 10
    ensures n % 100 % 10 == n % 10
  {
  }

  function TwoDigits(n: nat): string
    requires n < 100
  {
    [DigitChar(n / 10), DigitChar(n % 10)]
  }

  lemma PadTwo(n: nat)
    requires n < 100
    ensures PadStart(DigitsOf(n), 2) == TwoDigits(n)
  {
    if n >= 10 {
      assert DigitsOf(n / 10) == [DigitChar(n / 10)];
    }
  }

  lemma DigitsOfHundreds(n: nat)
    requires n >= 100
    ensures DigitsOf(n) == DigitsOf(n / 100) + TwoDigits(n % 100)
  {
    HundredSplit(n);
    assert DigitsOf(n) == DigitsOf(n / 10) + [DigitChar(n % 10)];
    assert DigitsOf(n / 10) == DigitsOf(n / 10 / 10) + [DigitChar(n / 10 % 10)];
  }

  /** Splitting the number and splitting its text are the same. */
  lemma SplitDigits(n: nat)
    ensures PadStart(DigitsOf(n), 3) == DigitsOf(n / 100) + PadStart(DigitsOf(n % 100), 2)
    ensures |PadStart(DigitsOf(n % 100), 2)| == 2
  {
    PadTwo(n % 100);
    PadStartOfDigits(DigitsOf(n));
    if n >= 100 {
      DigitsOfHundreds(n);
    } else {
      PadTwo(n);
      PadStartOfDigits(PadStart(DigitsOf(n), 2));
    }
  }

  /** The harness prints as the target does, for every integer. */
  lemma MoneyOfIsApiString(centavos: int)
    ensures MoneyOf(centavos) == ApiString(centavos)
  {
    var n := Abs(centavos);
    SplitDigits(n);
    var digits, high, low := PadStart(DigitsOf(n), 3), DigitsOf(n / 100), PadStart(DigitsOf(n % 100), 2);
    assert digits[..|digits| - 2] == high && digits[|digits| - 2..] == low;
  }

  /** The text without its first minus. */
  function DropMinus(s: string): string {
    if s == [] then [] else if s[0] == '-' then s[1..] else [s[0]] + DropMinus(s[1..])
  }

  /** Whole part and fraction, up to a second point. */
  function SplitPoint(s: string): (string, string) {
    var i := PointOf(s);
    var rest := if i < |s| then s[i + 1..] else [];
    (s[..i], rest[..PointOf(rest)])
  }

  /** The harness's parser; None where BigInt would not read plain digits. Blanks around the
      text are not modelled. */
  function CentavosOf(decimal: string): Option<int> {
    var negative := decimal != [] && decimal[0] == '-';
    var (whole, fraction) := SplitPoint(DropMinus(decimal));
    Assemble(negative, whole, (fraction + "00")[..2])
  }

  function Assemble(negative: bool, whole: string, cents: string): Option<int> {
    if !AllDigits(whole) || !AllDigits(cents) then None
    else
      var value: int := ValueOf(whole) * 100 + ValueOf(cents);
      Some(if negative then -value else value)
  }

  lemma {:induction false} NoMinusToDrop(s: string)
    requires forall i :: 0 <= i < |s| ==> s[i] != '-'
    ensures DropMinus(s) == s
  {
    if s != [] {
      NoMinusToDrop(s[1..]);
    }
  }

  lemma TwoDigitTail(whole: string, tail: string)
    requires AllDigits(whole) && AllDigits(tail) && |tail| == 2
    ensures ValueOf(whole + tail) == ValueOf(whole) * 100 + ValueOf(tail)
  {
    var all := whole + tail;
    assert all[..|all| - 1] == whole + [tail[0]];
    assert (whole + [tail[0]])[..|whole|] == whole;
    assert ValueOf(whole + [tail[0]]) == ValueOf(whole) * 10 + DigitValue(tail[0]);
    assert ValueOf([tail[0]]) == DigitValue(tail[0]);
    assert tail[..1] == [tail[0]];
  }

  /** The two parsers read every text of the grammar alike. */
  lemma ParsersAgree(p: Pesos)
    requires p.Valid()
    ensures CentavosOf(p.Text()) == CentavosFromDb(p.Text()) == Some(p.Centavos())
  {
    MatchIsComplete(p);
    DropsTheSign(p);
    SplitsTheBody(p);
    SliceIsPad(p.decimals);
    assert CentavosOf(p.Text()) == Assemble(p.negative, p.pesos, PadEnd(p.decimals, 2));
    AssembleIsValue(p);
  }

  lemma AssembleIsValue(p: Pesos)
    requires p.Valid()
    ensures Assemble(p.negative, p.pesos, PadEnd(p.decimals, 2)) == Some(p.Centavos())
  {
    TwoDigitTail(p.pesos, PadEnd(p.decimals, 2));
  }

  lemma DropsTheSign(p: Pesos)
    requires p.Valid()
    ensures DropMinus(p.Text()) == Body(p) && p.Text() != [] && (p.Text()[0] == '-' <==> p.negative)
  {
    var body := Body(p);
    assert IsDigit(p.pesos[0]) && body[0] == p.pesos[0];
    if p.negative {
      assert p.Text() == "-" + body && p.Text()[1..] == body;
    } else {
      assert p.Text() == body;
      NoMinusToDrop(body);
    }
  }

  lemma SplitsTheBody(p: Pesos)
    requires p.Valid()
    ensures SplitPoint(Body(p)) == (p.pesos, p.decimals)
  {
    BodySplits(p);
    NoPointIn(p.decimals);
    assert p.decimals[..|p.decimals|] == p.decimals;
  }

  lemma SliceIsPad(decimals: string)
    requires |decimals| <= 2
    ensures (decimals + "00")[..2] == PadEnd(decimals, 2)
  {
    if |decimals| == 0 {
      assert PadEnd(decimals + "0", 2) == decimals + "0" + "0";
    }
  }

  lemma {:induction false} NoPointIn(s: string)
    requires AllDigits(s)
    ensures PointOf(s) == |s|
  {
    if s != [] {
      NoPointIn(s[1..]);
    }
  }
}
