/**
 Human-readable entity codes as text: how they are written, how they are read back, and how the
 sign-in form recognises a farmer code.
 */
module EntityCodes {
  import opened Common

  // ---------------------------------------------------------------------------
  // Decimal numerals
  // ---------------------------------------------------------------------------

  predicate IsDigit(c: char) { '0' <= c <= '9' }

  predicate AreDigits(s: string) { forall i :: 0 <= i < |s| ==> IsDigit(s[i]) }

  function Digit(n: nat): char
    requires n < 10
  {
    "0123456789"[n]
  }

  // The shortest numeral for n.
  function Decimal(n: nat): string {
    if n < 10 then [Digit(n)] else Decimal(n / 10) + [Digit(n % 10)]
  }

  // The number a numeral stands for, leading zeros or not.
  function Value(s: string): nat
    requires AreDigits(s)
  {
    if s == [] then 0 else Value(s[..|s| - 1]) * 10 + (s[|s| - 1] as nat - '0' as nat)
  }

  function Zeros(k: nat): string { seq(k, _ => '0') }

  // Zeros in front, up to the width.
  function PadStart(s: string, width: nat): string {
    if |s| < width then Zeros(width - |s|) + s else s
  }

  lemma {:induction false} DecimalReadsBack(n: nat)
    ensures Decimal(n) != [] && AreDigits(Decimal(n)) && Value(Decimal(n)) == n
  {
    if n >= 10 {
      DecimalReadsBack(n / 10);
      assert Decimal(n)[..|Decimal(n)| - 1] == Decimal(n / 10);
    } else {
      assert Decimal(n)[..0] == [];
    }
  }

  lemma {:induction false} PaddingAddsNothing(k: nat, s: string)
    requires AreDigits(s)
    ensures AreDigits(Zeros(k) + s) && Value(Zeros(k) + s) == Value(s)
    decreases k + |s|
  {
    var t := Zeros(k) + s;
    if s != [] {
      PaddingAddsNothing(k, s[..|s| - 1]);
      assert t[..|t| - 1] == Zeros(k) + s[..|s| - 1];
    } else if k > 0 {
      PaddingAddsNothing(k - 1, s);
      assert t[..|t| - 1] == Zeros(k - 1) + s;
    }
  }

  lemma PaddedReadsBack(n: nat, width: nat)
    ensures var s := PadStart(Decimal(n), width); s != [] && AreDigits(s) && Value(s) == n
  {
    DecimalReadsBack(n);
    if |Decimal(n)| < width { PaddingAddsNothing(width - |Decimal(n)|, Decimal(n)); }
  }

  function PowerOfTen(k: nat): nat { if k == 0 then 1 else 10 * PowerOfTen(k - 1) }

  lemma {:induction false} DecimalLength(n: nat, k: nat)
    requires k > 0
    ensures |Decimal(n)| <= k <==> n < PowerOfTen(k)
  {
    if n < 10 {
      PowersGrow(k - 1);
    } else if k == 1 {
      DecimalReadsBack(n / 10);
    } else {
      DecimalLength(n / 10, k - 1);
    }
  }

  lemma PowersGrow(k: nat)
    ensures PowerOfTen(k) >= 1
  {
  }

  lemma FourDigits(n: nat)
    ensures |Decimal(n)| == 4 <==> 1000 <= n <= 9999
  {
    DecimalLength(n, 3);
    DecimalLength(n, 4);
    assert PowerOfTen(2) == 100 && PowerOfTen(3) == 1000;
  }

  // ---------------------------------------------------------------------------
  // Codes
  // ---------------------------------------------------------------------------

  datatype Entity = BatchCode | DeliveryCode | FarmerCode | GroupCode

  datatype Code = Code(entity: Entity, year: nat, number: nat)

  function Prefix(e: Entity): string {
    match e
    case BatchCode => "BATCH"
    case DeliveryCode => "DEL"
    case FarmerCode => "FARM"
    case GroupCode => "LOT"
  }

  function Padding(e: Entity): nat { if e == DeliveryCode then 6 else 5 }

  function Format(c: Code): string {
    Prefix(c.entity) + "-" + Decimal(c.year) + "-" + PadStart(Decimal(c.number), Padding(c.entity))
  }

  // The position of the first '-', or the length.
  function FirstDash(s: string): (i: nat)
    ensures i <= |s|
  {
    if s == [] || s[0] == '-' then 0 else 1 + FirstDash(s[1..])
  }

  lemma {:induction false} FirstDashAfter(s: string, rest: string)
    requires AreDigits(s)
    ensures FirstDash(s + "-" + rest) == |s|
  {
    if s != [] {
      FirstDashAfter(s[1..], rest);
      assert (s + "-" + rest)[1..] == s[1..] + "-" + rest;
    } else {
      assert s + "-" + rest == "-" + rest;
    }
  }

  // Reading a code: prefix, year, number.
  function Parse(e: Entity, s: string): Option<Code> {
    var head := Prefix(e) + "-";
    if !(head <= s) then None
    else
      var body := s[|head|..];
      var dash := FirstDash(body);
      if dash == |body| then None
      else
        var year, number := body[..dash], body[dash + 1..];
        if year != [] && number != [] && AreDigits(year) && AreDigits(number)
        then Some(Code(e, Value(year), Value(number)))
        else None
  }

  lemma ParseParts(e: Entity, year: string, number: string)
    requires AreDigits(year) && AreDigits(number) && year != [] && number != []
    ensures Parse(e, Prefix(e) + "-" + year + "-" + number) == Some(Code(e, Value(year), Value(number)))
  {
    hide Prefix, Value;
    var head, body := Prefix(e) + "-", year + "-" + number;
    var s := Prefix(e) + "-" + year + "-" + number;
    FirstDashAfter(year, number);
    assert s == head + body;
    assert s[|head|..] == body;
    assert body[..|year|] == year && body[|year| + 1..] == number;
  }

  // Writing and reading back is the identity, whatever the year and however large the number.
  lemma CodeReadsBack(c: Code)
    ensures Parse(c.entity, Format(c)) == Some(c)
  {
    hide Prefix, Parse, Decimal, PadStart;
    DecimalReadsBack(c.year);
    PaddedReadsBack(c.number, Padding(c.entity));
    ParseParts(c.entity, Decimal(c.year), PadStart(Decimal(c.number), Padding(c.entity)));
  }

  lemma CodesDiffer(c: Code, d: Code)
    requires Format(c) == Format(d)
    ensures c == d
  {
    assert Format(c)[0] == Prefix(c.entity)[0] && Format(d)[0] == Prefix(d.entity)[0];
    CodeReadsBack(c);
    CodeReadsBack(d);
  }

  // Numerals are padded to the width of their kind and no further.
  lemma CodeLooks(c: Code)
    ensures Prefix(c.entity) + "-" <= Format(c)
    ensures |Format(c)| == |Prefix(c.entity)| + 2 + |Decimal(c.year)|
      + if |Decimal(c.number)| < (if c.entity == DeliveryCode then 6 else 5) then (if c.entity == DeliveryCode then 6 else 5) else |Decimal(c.number)|
  {
  }

  lemma FirstNumerals()
    ensures Decimal(2026) == "2026" && PadStart(Decimal(1), 5) == "00001" && PadStart(Decimal(1), 6) == "000001"
  {
    assert Decimal(2) == "2" && Decimal(20) == "20" && Decimal(202) == "202";
    assert Decimal(1) == "1" && Zeros(4) == "0000" && Zeros(5) == "00000";
  }

  lemma FirstCodes()
    ensures Format(Code(BatchCode, 2026, 1)) == "BATCH-2026-00001"
    ensures Format(Code(DeliveryCode, 2026, 1)) == "DEL-2026-000001"
    ensures Format(Code(FarmerCode, 2026, 1)) == "FARM-2026-00001"
    ensures Format(Code(GroupCode, 2026, 1)) == "LOT-2026-00001"
  {
    hide Decimal, PadStart;
    FirstNumerals();
  }

  // ---------------------------------------------------------------------------
  // The sign-in field
  // ---------------------------------------------------------------------------

  datatype Kind = Email | Phone | FarmerCodeKind

  // String.prototype.trim strips these.
  const SPACES: set<char> := {
    '\t', '\n', '\U{000B}', '\U{000C}', '\r', ' ', '\U{00A0}', '\U{1680}', '\U{2000}', '\U{2001}', '\U{2002}', '\U{2003}',
    '\U{2004}', '\U{2005}', '\U{2006}', '\U{2007}', '\U{2008}', '\U{2009}', '\U{200A}', '\U{2028}', '\U{2029}',
    '\U{202F}', '\U{205F}', '\U{3000}', '\U{FEFF}'}

  predicate AllSpaces(s: string) { forall i :: 0 <= i < |s| ==> s[i] in SPACES }

  function TrimLeft(s: string): string {
    if s != [] && s[0] in SPACES then TrimLeft(s[1..]) else s
  }

  function TrimRight(s: string): string {
    if s != [] && s[|s| - 1] in SPACES then TrimRight(s[..|s| - 1]) else s
  }

  function Trim(s: string): string { TrimRight(TrimLeft(s)) }

  // toUpperCase, on the letters a farmer code is made of
  function UpperChar(c: char): char {
    if 'a' <= c <= 'z' then (c as int - 'a' as int + 'A' as int) as char else c
  }

  function Upper(s: string): string { seq(|s|, i requires 0 <= i < |s| => UpperChar(s[i])) }

  // In any case, four digits for the year, one or more for the number.
  predicate LooksLikeFarmerCode(s: string) {
    && |s| >= 11
    && Upper(s[..4]) == "FARM" && s[4] == '-'
    && AreDigits(s[5..9]) && s[9] == '-'
    && AreDigits(s[10..])
  }

  function Classify(raw: string): Kind {
    var value := Trim(raw);
    if '@' in value then Email else if LooksLikeFarmerCode(value) then FarmerCodeKind else Phone
  }

  // The farmer code a sign-in is looked up by.
  function LookupKey(raw: string): string { Upper(Trim(raw)) }

  lemma {:induction false} TrimLeftDrops(a: string, s: string)
    requires AllSpaces(a) && s != [] && s[0] !in SPACES
    ensures TrimLeft(a + s) == s
  {
    if a != [] {
      TrimLeftDrops(a[1..], s);
      assert (a + s)[1..] == a[1..] + s;
    } else {
      assert a + s == s;
    }
  }

  lemma {:induction false} TrimRightDrops(s: string, b: string)
    requires AllSpaces(b) && s != [] && s[|s| - 1] !in SPACES
    ensures TrimRight(s + b) == s
  {
    if b != [] {
      TrimRightDrops(s, b[..|b| - 1]);
      assert (s + b)[..|s + b| - 1] == s + b[..|b| - 1];
    } else {
      assert s + b == s;
    }
  }

  lemma TrimDrops(a: string, s: string, b: string)
    requires AllSpaces(a) && AllSpaces(b) && s != [] && s[0] !in SPACES && s[|s| - 1] !in SPACES
    ensures Trim(a + s + b) == s
  {
    assert a + s + b == a + (s + b);
    TrimLeftDrops(a, s + b);
    TrimRightDrops(s, b);
  }

  lemma {:induction false} TrimLeftKeeps(s: string, c: char)
    requires c !in SPACES
    ensures c in TrimLeft(s) <==> c in s
    decreases |s|
  {
    if s != [] && s[0] in SPACES {
      TrimLeftKeeps(s[1..], c);
      assert s == [s[0]] + s[1..];
    }
  }

  lemma {:induction false} TrimRightKeeps(s: string, c: char)
    requires c !in SPACES
    ensures c in TrimRight(s) <==> c in s
    decreases |s|
  {
    if s != [] && s[|s| - 1] in SPACES {
      TrimRightKeeps(s[..|s| - 1], c);
      assert s == s[..|s| - 1] + [s[|s| - 1]];
    }
  }

  // Anything with an at sign is taken for an e-mail address, and nothing else is.
  lemma EmailsHaveAnAt(raw: string)
    ensures Classify(raw) == Email <==> '@' in raw
  {
    TrimLeftKeeps(raw, '@');
    TrimRightKeeps(TrimLeft(raw), '@');
  }

  lemma FarmerCodeParts(year: nat, number: nat)
    ensures var s := Format(Code(FarmerCode, year, number)); var y, n := Decimal(year), PadStart(Decimal(number), 5);
      && s == "FARM-" + y + "-" + n
      && AreDigits(y) && y != [] && AreDigits(n) && |n| >= 5
  {
    DecimalReadsBack(year);
    PaddedReadsBack(number, 5);
  }

  // However it is typed, with spaces around it or in lower case, a generated farmer code is taken
  // for one, and looked up as it was issued, exactly when its year has four digits.
  lemma FarmerCodeIsRecognised(year: nat, number: nat, typed: string, before: string, after: string)
    requires AllSpaces(before) && AllSpaces(after)
    requires Upper(typed) == Format(Code(FarmerCode, year, number))
    ensures Classify(before + typed + after) == FarmerCodeKind <==> 1000 <= year <= 9999
    ensures LookupKey(before + typed + after) == Format(Code(FarmerCode, year, number))
  {
    var s, y, n := Format(Code(FarmerCode, year, number)), Decimal(year), PadStart(Decimal(number), 5);
    FarmerCodeParts(year, number);
    FourDigits(year);
    assert |s| == 6 + |y| + |n|;
    forall i | 0 <= i < |typed| ensures UpperChar(typed[i]) == s[i] && (s[i] == '-' || IsDigit(s[i]) ==> typed[i] == s[i]) {
      assert Upper(typed)[i] == s[i];
    }
    Untouched(typed, s);
    TrimDrops(before, typed, after);
    DashPlaces(typed, y, n);
  }

  // Upper case leaves digits, dashes and everything but letters as they are.
  lemma Untouched(typed: string, s: string)
    requires Upper(typed) == s && s != [] && s[0] == 'F' && IsDigit(s[|s| - 1])
    requires forall i :: 0 <= i < |s| ==> s[i] == '-' || IsDigit(s[i]) || s[i] in "FARM"
    ensures |typed| == |s| && typed[0] !in SPACES && typed[|s| - 1] !in SPACES && '@' !in typed
  {
    forall i | 0 <= i < |typed| ensures UpperChar(typed[i]) == s[i] {
      assert Upper(typed)[i] == s[i];
    }
  }

  lemma DashPlaces(typed: string, y: string, n: string)
    requires Upper(typed) == "FARM-" + y + "-" + n
    requires AreDigits(y) && y != [] && AreDigits(n) && |n| >= 5
    ensures LooksLikeFarmerCode(typed) <==> |y| == 4
  {
    var s := "FARM-" + y + "-" + n;
    forall i | 0 <= i < |typed| ensures UpperChar(typed[i]) == s[i] {
      assert Upper(typed)[i] == s[i];
    }
    assert s[5 + |y|] == '-';
    assert forall i :: 0 <= i < |y| ==> s[5 + i] == y[i];
    assert forall i :: 0 <= i < |n| ==> s[6 + |y| + i] == n[i];
    assert Upper(typed[..4]) == "FARM";
    if |y| < 4 {
      assert typed[5..9][|y|] == '-';
    } else if |y| > 4 {
      assert IsDigit(s[9]) by { assert s[9] == y[4]; }
    } else {
      forall i | 0 <= i < 4 ensures IsDigit(typed[5..9][i]) { assert s[5 + i] == y[i]; }
      forall i | 0 <= i < |n| ensures IsDigit(typed[10..][i]) { assert s[10 + i] == n[i]; }
    }
  }

  predicate WrittenAs(s: string, year: string, number: string) {
    s == "FARM-" + year + "-" + number && |year| == 4 && AreDigits(year) && number != [] && AreDigits(number)
  }

  // A sign-in is taken for a farmer code exactly if what it is looked up by is one of four digits and a
  // number.
  lemma OnlyFarmerCodesLookSo(raw: string)
    ensures Classify(raw) == FarmerCodeKind <==> exists year, number :: WrittenAs(LookupKey(raw), year, number)
  {
    var value := Trim(raw);
    assert LookupKey(raw) == Upper(value);
    assert Classify(raw) == FarmerCodeKind <==> '@' !in value && LooksLikeFarmerCode(value);
    hide *;
    if LooksLikeFarmerCode(value) {
      LooksWritten(value);
    }
    if year, number :| WrittenAs(Upper(value), year, number) {
      WrittenLooks(value, year, number);
    }
  }

  lemma LooksWritten(typed: string)
    requires LooksLikeFarmerCode(typed)
    ensures exists year, number :: WrittenAs(Upper(typed), year, number)
  {
    var s, t := Upper(typed), "FARM-" + typed[5..9] + "-" + typed[10..];
    forall i | 0 <= i < |s| ensures s[i] == t[i] {
      if i < 4 { assert Upper(typed[..4])[i] == s[i]; }
      if 5 <= i < 9 { assert IsDigit(typed[5..9][i - 5]); }
      if 10 <= i { assert IsDigit(typed[10..][i - 10]); }
    }
    assert WrittenAs(s, typed[5..9], typed[10..]);
  }

  lemma WrittenLooks(typed: string, year: string, number: string)
    requires WrittenAs(Upper(typed), year, number)
    ensures LooksLikeFarmerCode(typed) && '@' !in typed
  {
    var s := "FARM-" + year + "-" + number;
    forall i | 0 <= i < |typed| ensures UpperChar(typed[i]) == s[i] {
      assert Upper(typed)[i] == s[i];
    }
    forall i | 0 <= i < 4 ensures IsDigit(typed[5..9][i]) { assert s[5 + i] == year[i]; }
    forall i | 10 <= i < |s| ensures IsDigit(s[i]) { assert s[i] == number[i - 10]; }
    forall i | 0 <= i < |typed[10..]| ensures IsDigit(typed[10..][i]) { assert IsDigit(s[10 + i]); }
    assert Upper(typed[..4]) == "FARM";
  }
}
