/**
 Park-marker identity: the drain key, the marker filename, and the two ways a census is
 held against the marker directory.
 */
module ParkProof {
  import opened Base

  // ---- Decimal text ------------------------------------------------------------------

  predicate IsDigit(c: char) {
    '0' <= c <= '9'
  }

  /** `isascii() and isdecimal()`. */
  predicate Digits(s: string) {
    s != [] && forall i :: 0 <= i < |s| ==> IsDigit(s[i])
  }

  function DigitChar(d: nat): char
    requires d < 10
  {
    ('0' as int + d) as char
  }

  function Decimal(n: nat): string {
    if n < 10 then [DigitChar(n)] else Decimal(n / 10) + [DigitChar(n % 10)]
  }

  function ParseDecimal(s: string): nat
    requires forall i :: 0 <= i < |s| ==> IsDigit(s[i])
  {
    if s == [] then 0
    else
      assert IsDigit(s[|s| - 1]);
      10 * ParseDecimal(s[..|s| - 1]) + (s[|s| - 1] as int - '0' as int)
  }

  lemma {:induction false} DecimalParses(n: nat)
    ensures Digits(Decimal(n)) && ParseDecimal(Decimal(n)) == n
  {
    if n < 10 {
      var s := Decimal(n);
      assert s[..|s| - 1] == [];
    } else {
      DecimalParses(n / 10);
      var s := Decimal(n);
      assert s[..|s| - 1] == Decimal(n / 10);
    }
  }

  // ---- Printed numbers -----------------------------------------------------------------

  datatype Exponent = NoExponent | Exponent(negative: bool, digits: string)

  /** The printed form of a finite number: sign, whole part, fraction, exponent. */
  datatype Printed = Printed(negative: bool, whole: string, fraction: Option<string>, exponent: Exponent)

  predicate WellPrinted(p: Printed) {
    && Digits(p.whole)
    && (p.fraction.Some? ==> Digits(p.fraction.value))
    && (p.exponent.Exponent? ==> Digits(p.exponent.digits))
  }

  function Sign(p: Printed): string {
    if p.negative then "-" else ""
  }

  /** Everything between the sign and the exponent. */
  function Mantissa(p: Printed): string {
    p.whole + if p.fraction.Some? then "." + p.fraction.value else ""
  }

  /** The exponent, with `minus` and `plus` for its sign. */
  function ExponentText(e: Exponent, minus: char, plus: char): string {
    match e
    case NoExponent => ""
    case Exponent(negative, digits) => ['e', if negative then minus else plus] + digits
  }

  /** `str(stamp)`. */
  function Text(p: Printed): string {
    Sign(p) + Mantissa(p) + ExponentText(p.exponent, '-', '+')
  }

  // ---- The drain key ---------------------------------------------------------------------

  /** `s.replace(first + old, first + new)`. */
  function ReplaceAfter(s: string, first: char, old1: char, new1: char): string {
    if |s| < 2 then s
    else if s[0] == first && s[1] == old1 then [first, new1] + ReplaceAfter(s[2..], first, old1, new1)
    else [s[0]] + ReplaceAfter(s[1..], first, old1, new1)
  }

  /** The key of a drain's `changed_unix`. */
  function Key(text: string): string {
    var key := ReplaceAfter(ReplaceAfter(text, 'e', '-', 'm'), 'e', '+', 'p');
    if key != [] && key[0] == '-' then "_" + key[1..] else key
  }

  ghost predicate Without(s: string, c: char) {
    forall i :: 0 <= i < |s| ==> s[i] != c
  }

  lemma {:induction false} ReplaceSkips(x: string, y: string, old1: char, new1: char)
    requires Without(x, 'e')
    ensures ReplaceAfter(x + y, 'e', old1, new1) == x + ReplaceAfter(y, 'e', old1, new1)
  {
    if x == [] {
      assert x + y == y;
    } else {
      assert (x + y)[1..] == x[1..] + y;
      assert (x + y)[0] == x[0] != 'e';
      ReplaceSkips(x[1..], y, old1, new1);
      if |x + y| < 2 {
        assert y == [];
      }
    }
  }

  lemma ReplaceExponent(e: Exponent, minus: char, plus: char, old1: char, new1: char)
    requires e.Exponent? ==> Digits(e.digits)
    requires minus != 'e' && plus != 'e'
    ensures ReplaceAfter(ExponentText(e, minus, plus), 'e', old1, new1)
            == ExponentText(e, if minus == old1 then new1 else minus, if plus == old1 then new1 else plus)
  {
    if e.Exponent? {
      var sign := if e.negative then minus else plus;
      ReplaceNone(e.digits, old1, new1);
      ReplaceNone([sign] + e.digits, old1, new1);
      ReplaceAtFirst(sign, e.digits, old1, new1);
    }
  }

  lemma ReplaceNone(s: string, old1: char, new1: char)
    requires Without(s, 'e')
    ensures ReplaceAfter(s, 'e', old1, new1) == s
  {
    hide ReplaceAfter;
    ReplaceSkips(s, "", old1, new1);
    assert s + "" == s;
    assert ReplaceAfter("", 'e', old1, new1) == "" by { ReplaceEmpty(old1, new1); }
  }

  lemma ReplaceEmpty(old1: char, new1: char)
    ensures ReplaceAfter("", 'e', old1, new1) == ""
  {
  }

  lemma ReplaceAtFirst(sign: char, rest: string, old1: char, new1: char)
    ensures ReplaceAfter(['e', sign] + rest, 'e', old1, new1) ==
            if sign == old1 then ['e', new1] + ReplaceAfter(rest, 'e', old1, new1)
            else ['e'] + ReplaceAfter([sign] + rest, 'e', old1, new1)
  {
    var s := ['e', sign] + rest;
    assert s[2..] == rest && s[1..] == [sign] + rest;
  }

  /** The two replacements together rename the exponent's sign and nothing else. */
  lemma ReplaceBoth(head: string, e: Exponent, minus: char, plus: char, minus1: char, plus1: char)
    requires Without(head, 'e') && (e.Exponent? ==> Digits(e.digits))
    requires minus != 'e' && plus != 'e' && minus1 != 'e' && minus != plus && minus1 != plus
    ensures ReplaceAfter(ReplaceAfter(head + ExponentText(e, minus, plus), 'e', minus, minus1), 'e', plus, plus1)
            == head + ExponentText(e, minus1, plus1)
  {
    hide ReplaceAfter;
    hide ExponentText;
    hide Digits;
    ReplaceSkips(head, ExponentText(e, minus, plus), minus, minus1);
    ReplaceExponent(e, minus, plus, minus, minus1);
    ReplaceSkips(head, ExponentText(e, minus1, plus), plus, plus1);
    ReplaceExponent(e, minus1, plus, plus, plus1);
  }

  lemma HeadHasNoExponent(p: Printed)
    requires WellPrinted(p)
    ensures Without(Mantissa(p), 'e') && Mantissa(p) != [] && IsDigit(Mantissa(p)[0])
    ensures Without("-" + Mantissa(p), 'e') && Without("_" + Mantissa(p), 'e')
  {
  }

  /** What the key of a printed number looks like. */
  lemma KeyOfPrinted(p: Printed)
    requires WellPrinted(p)
    ensures Key(Text(p)) == (if p.negative then "_" else "") + Mantissa(p) + ExponentText(p.exponent, 'm', 'p')
  {
    hide ReplaceAfter;
    hide ExponentText;
    hide Mantissa;
    hide Without;
    HeadHasNoExponent(p);
    assert Sign(p) + Mantissa(p) == if p.negative then "-" + Mantissa(p) else Mantissa(p);
    ReplaceBoth(Sign(p) + Mantissa(p), p.exponent, '-', '+', 'm', 'p');
    var body := Mantissa(p) + ExponentText(p.exponent, 'm', 'p');
    assert Sign(p) + Mantissa(p) + ExponentText(p.exponent, 'm', 'p') == Sign(p) + body;
    assert ("-" + body)[1..] == body;
    assert ("_" + Mantissa(p)) + ExponentText(p.exponent, 'm', 'p') == "_" + body;
    assert "" + Mantissa(p) + ExponentText(p.exponent, 'm', 'p') == "" + body == body;
    assert body[0] == Mantissa(p)[0];
  }

  predicate KeyCharacter(c: char) {
    IsDigit(c) || c == '.' || c == 'e' || c == 'm' || c == 'p' || c == '_'
  }

  /** A key holds no hyphen, which separates fields, and nothing special in a glob pattern. */
  lemma KeyHasNoHyphen(p: Printed)
    requires WellPrinted(p)
    ensures forall c :: c in Key(Text(p)) ==> KeyCharacter(c)
    ensures Without(Key(Text(p)), '-')
  {
    hide Key;
    hide Text;
    hide ReplaceAfter;
    KeyOfPrinted(p);
    var mark := if p.negative then "_" else "";
    assert forall c :: c in mark ==> KeyCharacter(c);
    assert forall c :: c in Mantissa(p) ==> KeyCharacter(c);
    assert forall c :: c in ExponentText(p.exponent, 'm', 'p') ==> KeyCharacter(c);
  }

  /** Reads a key back. */
  function Unkey(key: string): string {
    var text := ReplaceAfter(ReplaceAfter(key, 'e', 'm', '-'), 'e', 'p', '+');
    if text != [] && text[0] == '_' then "-" + text[1..] else text
  }

  /** The key determines the printed number. */
  lemma KeyRoundTrip(p: Printed)
    requires WellPrinted(p)
    ensures Unkey(Key(Text(p))) == Text(p)
  {
    hide ReplaceAfter;
    hide ExponentText;
    hide Mantissa;
    hide Without;
    hide Key;
    HeadHasNoExponent(p);
    KeyOfPrinted(p);
    var mark := if p.negative then "_" else "";
    assert mark + Mantissa(p) == if p.negative then "_" + Mantissa(p) else Mantissa(p);
    ReplaceBoth(mark + Mantissa(p), p.exponent, 'm', 'p', '-', '+');
    var body := Mantissa(p) + ExponentText(p.exponent, '-', '+');
    assert mark + Mantissa(p) + ExponentText(p.exponent, '-', '+') == mark + body;
    assert ("_" + body)[1..] == body;
    assert "" + body == body;
    assert Text(p) == Sign(p) + body;
    assert body[0] == Mantissa(p)[0];
  }

  lemma SplitNoLater(a: string, x: string, b: string, y: string, c: char)
    requires Without(b, c) && a + x == b + y && (x == [] || x[0] == c)
    ensures |b| <= |a|
  {
    assert |a + x| == |b + y|;
    assert forall i :: 0 <= i < |b| ==> (b + y)[i] != c;
    assert x != [] ==> (a + x)[|a|] == c;
  }

  /** A text splits in one way only at the first `c`. */
  lemma SplitUnique(a: string, x: string, b: string, y: string, c: char)
    requires Without(a, c) && Without(b, c) && a + x == b + y
    requires (x == [] || x[0] == c) && (y == [] || y[0] == c)
    ensures a == b && x == y
  {
    SplitNoLater(a, x, b, y, c);
    SplitNoLater(b, y, a, x, c);
    assert a == (a + x)[..|a|] && b == (b + y)[..|a|];
    assert x == (a + x)[|a|..] && y == (b + y)[|a|..];
  }

  lemma ExponentTextInjective(e: Exponent, f: Exponent)
    requires ExponentText(e, '-', '+') == ExponentText(f, '-', '+')
    ensures e == f
  {
    var s, t := ExponentText(e, '-', '+'), ExponentText(f, '-', '+');
    assert e.Exponent? ==> s[1] == (if e.negative then '-' else '+') && s[2..] == e.digits;
    assert f.Exponent? ==> t[1] == (if f.negative then '-' else '+') && t[2..] == f.digits;
  }

  lemma MantissaInjective(p: Printed, q: Printed)
    requires WellPrinted(p) && WellPrinted(q) && Mantissa(p) == Mantissa(q)
    ensures p.whole == q.whole && p.fraction == q.fraction
  {
    var x := if p.fraction.Some? then "." + p.fraction.value else "";
    var y := if q.fraction.Some? then "." + q.fraction.value else "";
    SplitUnique(p.whole, x, q.whole, y, '.');
    assert p.fraction.Some? ==> x[1..] == p.fraction.value;
    assert q.fraction.Some? ==> y[1..] == q.fraction.value;
  }

  /** Distinct printed forms read differently. */
  lemma TextInjective(p: Printed, q: Printed)
    requires WellPrinted(p) && WellPrinted(q) && Text(p) == Text(q)
    ensures p == q
  {
    hide Mantissa;
    hide ExponentText;
    HeadHasNoExponent(p);
    HeadHasNoExponent(q);
    var m, n := Mantissa(p), Mantissa(q);
    var x, y := ExponentText(p.exponent, '-', '+'), ExponentText(q.exponent, '-', '+');
    assert Text(p) == Sign(p) + (m + x) && Text(q) == Sign(q) + (n + y);
    assert p.negative <==> Text(p)[0] == '-';
    assert q.negative <==> Text(q)[0] == '-';
    assert m + x == Text(p)[|Sign(p)|..] && n + y == Text(q)[|Sign(q)|..];
    ExponentStarts(p.exponent);
    ExponentStarts(q.exponent);
    SplitUnique(m, x, n, y, 'e');
    ExponentTextInjective(p.exponent, q.exponent);
    MantissaInjective(p, q);
  }

  lemma ExponentStarts(e: Exponent)
    ensures var s := ExponentText(e, '-', '+'); s == [] || s[0] == 'e'
  {
  }

  // ---- Gates and drain identities --------------------------------------------------------

  /** A finite float, as Python prints it: it always shows a fraction or an exponent. */
  type FloatText = p: Printed | WellPrinted(p) && (p.fraction.Some? || p.exponent.Exponent?)
    witness Printed(false, "0", Some("0"), NoExponent)

  /** A gate's `changed_unix`. */
  datatype Stamp = NotNumeric | NotFinite | Integer(value: int) | Float(text: FloatText)

  /** What a gate file held; `closed` says `draining` is exactly true. */
  datatype Gate = NotAnObject | GateObject(closed: bool, changed: Stamp)

  datatype Reason =
    GateNotClosed | NoNumericIdentity | IdentityNotFinite | GateChanged | BadPid | BadStartTicks

  datatype Drain = Drain(key: string) | DrainUnknown(reason: Reason)

  function Pow2(n: nat): (r: nat)
    ensures r > 0
  {
    if n == 0 then 1 else 2 * Pow2(n - 1)
  }

  /** An integer that still rounds to a finite double. */
  predicate FiniteInteger(n: int) {
    var bound := Pow2(970) * (Pow2(54) - 1);
    -bound < n < bound
  }

  function PrintedInteger(n: int): (p: Printed)
    ensures WellPrinted(p)
  {
    var magnitude := if n < 0 then -n else n;
    DecimalParses(magnitude);
    Printed(n < 0, Decimal(magnitude), None, NoExponent)
  }

  function PrintedStamp(s: Stamp): (p: Printed)
    requires s.Integer? || s.Float?
    ensures WellPrinted(p)
  {
    if s.Integer? then PrintedInteger(s.value) else s.text
  }

  function DrainIdentity(gate: Gate): Drain {
    if gate.NotAnObject? || !gate.closed then DrainUnknown(GateNotClosed)
    else if gate.changed.NotNumeric? then DrainUnknown(NoNumericIdentity)
    else if gate.changed.NotFinite? || (gate.changed.Integer? && !FiniteInteger(gate.changed.value))
      then DrainUnknown(IdentityNotFinite)
    else Drain(Key(Text(PrintedStamp(gate.changed))))
  }

  lemma PrintedStampInjective(s: Stamp, t: Stamp)
    requires (s.Integer? || s.Float?) && (t.Integer? || t.Float?)
    requires PrintedStamp(s) == PrintedStamp(t)
    ensures s == t
  {
    if s.Integer? && t.Integer? {
      DecimalParses(if s.value < 0 then -s.value else s.value);
      DecimalParses(if t.value < 0 then -t.value else t.value);
    }
  }

  /** Two closed gates have one key exactly when they have one `changed_unix`. */
  lemma DrainKeyInjective(g: Gate, h: Gate)
    requires DrainIdentity(g).Drain? && DrainIdentity(h).Drain?
    ensures DrainIdentity(g) == DrainIdentity(h) <==> g.changed == h.changed
    ensures Without(DrainIdentity(g).key, '-')
  {
    hide Key;
    hide Text;
    hide FiniteInteger;
    var p, q := PrintedStamp(g.changed), PrintedStamp(h.changed);
    KeyHasNoHyphen(p);
    if DrainIdentity(g) == DrainIdentity(h) {
      KeyRoundTrip(p);
      KeyRoundTrip(q);
      TextInjective(p, q);
      PrintedStampInjective(g.changed, h.changed);
    }
  }

  // ---- Process identities and marker names ---------------------------------------------

  /** One census row; a value of the wrong type is None. */
  datatype Row = Row(pid: Option<int>, start: Option<string>)

  datatype Process = Process(pid: nat, start: string) | ProcessUnknown(reason: Reason)

  predicate Identified(p: Process) {
    p.Process? && p.pid > 0 && Digits(p.start)
  }

  function ProcessIdentity(row: Row): (p: Process)
    ensures p.Process? ==> Identified(p) && row == Row(Some(p.pid), Some(p.start))
    ensures p.Process? <==> row.pid.Some? && row.pid.value > 0 && row.start.Some? && Digits(row.start.value)
  {
    if row.pid.None? || row.pid.value <= 0 then ProcessUnknown(BadPid)
    else if row.start.None? || !Digits(row.start.value) then ProcessUnknown(BadStartTicks)
    else Process(row.pid.value, row.start.value)
  }

  function Filename(p: Process, key: string): string
    requires p.Process?
  {
    Decimal(p.pid) + "-" + p.start + "-" + key
  }

  /** Distinct process, start and drain never share a marker name. */
  lemma FilenameInjective(p: Process, k: string, q: Process, l: string)
    requires Identified(p) && Identified(q)
    requires Filename(p, k) == Filename(q, l)
    ensures p == q && k == l
  {
    DecimalParses(p.pid);
    DecimalParses(q.pid);
    var x, y := "-" + (p.start + ("-" + k)), "-" + (q.start + ("-" + l));
    assert Filename(p, k) == Decimal(p.pid) + x && Filename(q, l) == Decimal(q.pid) + y;
    SplitUnique(Decimal(p.pid), x, Decimal(q.pid), y, '-');
    assert x[1..] == p.start + ("-" + k) && y[1..] == q.start + ("-" + l);
    SplitUnique(p.start, "-" + k, q.start, "-" + l, '-');
    assert ("-" + k)[1..] == k && ("-" + l)[1..] == l;
  }

  // ---- The two ways to hold a census against the markers ---------------------------------

  /** Every row is an identified process whose marker for this drain is present. */
  ghost predicate AllParked(census: seq<Row>, markers: set<string>, key: string) {
    forall i :: 0 <= i < |census| ==>
      var p := ProcessIdentity(census[i]);
      p.Process? && Filename(p, key) in markers
  }

  /** What a complete acknowledgement promises: one known, unchanged drain, and every process parked on it. */
  ghost predicate Acknowledged(census: seq<Row>, markers: set<string>, before: Gate, after: Gate) {
    && DrainIdentity(before).Drain?
    && DrainIdentity(after) == DrainIdentity(before)
    && AllParked(census, markers, DrainIdentity(before).key)
  }

  datatype Acknowledgements = Acknowledgements(unparked: seq<nat>, unknown: seq<Reason>)

  predicate Complete(a: Acknowledgements) {
    a.unparked == [] && a.unknown == []
  }

  /** The pids, in census order, of identified processes without a marker. */
  function Unparked(census: seq<Row>, markers: set<string>, key: string): seq<nat> {
    if census == [] then []
    else
      var last := ProcessIdentity(census[|census| - 1]);
      Unparked(census[..|census| - 1], markers, key) +
      if last.Process? && Filename(last, key) !in markers then [last.pid] else []
  }

  /** The reasons, in census order, of rows that identify no process. */
  function Unidentified(census: seq<Row>): seq<Reason> {
    if census == [] then []
    else
      var last := ProcessIdentity(census[|census| - 1]);
      Unidentified(census[..|census| - 1]) + if last.ProcessUnknown? then [last.reason] else []
  }

  lemma {:induction false} NothingMissing(census: seq<Row>, markers: set<string>, key: string)
    ensures Unparked(census, markers, key) == [] && Unidentified(census) == [] <==> AllParked(census, markers, key)
  {
    hide Filename;
    if census != [] {
      var front := census[..|census| - 1];
      NothingMissing(front, markers, key);
      assert forall i :: 0 <= i < |front| ==> census[i] == front[i];
    }
  }

  method Acknowledge(census: seq<Row>, markers: set<string>, before: Gate, after: Gate) returns (a: Acknowledgements)
    ensures Complete(a) <==> Acknowledged(census, markers, before, after)
    ensures DrainIdentity(before).DrainUnknown? ==> a == Acknowledgements([], [DrainIdentity(before).reason])
    ensures DrainIdentity(before).Drain? && DrainIdentity(after).DrainUnknown? ==>
              a == Acknowledgements([], [DrainIdentity(after).reason])
    ensures DrainIdentity(before).Drain? && DrainIdentity(after).Drain? && before.changed != after.changed ==>
              a == Acknowledgements([], [GateChanged])
    ensures DrainIdentity(before).Drain? && DrainIdentity(after) == DrainIdentity(before) ==>
              a == Acknowledgements(Unparked(census, markers, DrainIdentity(before).key), Unidentified(census))
  {
    hide Key;
    hide Text;
    hide FiniteInteger;
    hide Filename;
    var first, second := DrainIdentity(before), DrainIdentity(after);
    if first.DrainUnknown? { return Acknowledgements([], [first.reason]); }
    if second.DrainUnknown? { return Acknowledgements([], [second.reason]); }
    DrainKeyInjective(before, after);
    if first != second { return Acknowledgements([], [GateChanged]); }
    var unparked: seq<nat>, unknown: seq<Reason> := [], [];
    for i := 0 to |census|
      invariant unparked == Unparked(census[..i], markers, first.key)
      invariant unknown == Unidentified(census[..i])
    {
      assert census[..i + 1][..i] == census[..i];
      var process := ProcessIdentity(census[i]);
      if process.ProcessUnknown? {
        unknown := unknown + [process.reason];
      } else if Filename(process, first.key) !in markers {
        unparked := unparked + [process.pid];
      }
    }
    assert census[..|census|] == census;
    NothingMissing(census, markers, first.key);
    return Acknowledgements(unparked, unknown);
  }

  datatype Expected = Expected(names: set<string>) | ExpectedUnknown(reason: Reason)

  ghost predicate AllIdentified(census: seq<Row>) {
    forall i :: 0 <= i < |census| ==> ProcessIdentity(census[i]).Process?
  }

  ghost function Names(census: seq<Row>, key: string): set<string>
    requires AllIdentified(census)
  {
    set i | 0 <= i < |census| :: Filename(ProcessIdentity(census[i]), key)
  }

  method ExpectedMarkers(census: seq<Row>, gate: Gate) returns (e: Expected)
    ensures e.Expected? <==> DrainIdentity(gate).Drain? && AllIdentified(census)
    ensures e.Expected? ==> e.names == Names(census, DrainIdentity(gate).key)
    ensures DrainIdentity(gate).DrainUnknown? ==> e.reason == DrainIdentity(gate).reason
    ensures e.ExpectedUnknown? && DrainIdentity(gate).Drain? ==>
              exists i :: 0 <= i < |census| && AllIdentified(census[..i]) && ProcessIdentity(census[i]) == ProcessUnknown(e.reason)
  {
    hide DrainIdentity;
    hide Filename;
    var drain := DrainIdentity(gate);
    if drain.DrainUnknown? { return ExpectedUnknown(drain.reason); }
    var names: set<string> := {};
    for i := 0 to |census|
      invariant AllIdentified(census[..i])
      invariant names == Names(census[..i], drain.key)
    {
      var process := ProcessIdentity(census[i]);
      if process.ProcessUnknown? { return ExpectedUnknown(process.reason); }
      assert forall j :: 0 <= j < i ==> census[..i + 1][j] == census[..i][j];
      names := names + {Filename(process, drain.key)};
    }
    assert census[..|census|] == census;
    return Expected(names);
  }

  /** Under one gate the two routes reach the same verdict. */
  lemma RoutesAgree(census: seq<Row>, markers: set<string>, gate: Gate)
    ensures Acknowledged(census, markers, gate, gate) <==>
            DrainIdentity(gate).Drain? && AllIdentified(census) && Names(census, DrainIdentity(gate).key) <= markers
  {
    hide DrainIdentity;
    hide Filename;
    if DrainIdentity(gate).Drain? && AllIdentified(census) && Names(census, DrainIdentity(gate).key) <= markers {
      forall i | 0 <= i < |census| ensures Filename(ProcessIdentity(census[i]), DrainIdentity(gate).key) in markers {
        assert Filename(ProcessIdentity(census[i]), DrainIdentity(gate).key) in Names(census, DrainIdentity(gate).key);
      }
    }
  }

  /** `name` belongs to another drain, or to a process that is not in the census: a reused pid, say. */
  ghost predicate Foreign(name: string, census: seq<Row>, key: string) {
    exists p, k :: Identified(p) && name == Filename(p, k) &&
      (k != key || forall i :: 0 <= i < |census| ==> ProcessIdentity(census[i]) != p)
  }

  /** Markers of other drains and other processes neither acknowledge nor withhold anything. */
  lemma ForeignMarkersNeverCount(census: seq<Row>, markers: set<string>, foreign: set<string>, gate: Gate)
    requires DrainIdentity(gate).Drain?
    requires forall name :: name in foreign ==> Foreign(name, census, DrainIdentity(gate).key)
    ensures Acknowledged(census, markers + foreign, gate, gate) <==> Acknowledged(census, markers - foreign, gate, gate)
  {
    hide DrainIdentity;
    hide Filename;
    var key := DrainIdentity(gate).key;
    forall i | 0 <= i < |census| && ProcessIdentity(census[i]).Process?
      ensures Filename(ProcessIdentity(census[i]), key) !in foreign
    {
      NotForeign(census, i, foreign, key);
    }
  }

  lemma NotForeign(census: seq<Row>, i: nat, foreign: set<string>, key: string)
    requires i < |census| && ProcessIdentity(census[i]).Process?
    requires forall name :: name in foreign ==> Foreign(name, census, key)
    ensures Filename(ProcessIdentity(census[i]), key) !in foreign
  {
    hide Filename;
    var p := ProcessIdentity(census[i]);
    forall q, k | Identified(q) && Filename(p, key) == Filename(q, k) ensures q == p && k == key {
      FilenameInjective(p, key, q, k);
    }
    assert !Foreign(Filename(p, key), census, key);
  }

  // ---- Reading the marker directory --------------------------------------------------------

  function FirstHyphen(s: string): (n: nat)
    ensures n <= |s| && (n < |s| ==> s[n] == '-')
    ensures forall i :: 0 <= i < n ==> s[i] != '-'
  {
    if s == [] || s[0] == '-' then 0 else 1 + FirstHyphen(s[1..])
  }

  datatype Fields = Fields(first: string, second: string, rest: string)

  /** `name.split("-", 2)` when it yields three fields. */
  function SplitFields(name: string): Option<Fields> {
    var i := FirstHyphen(name);
    if i == |name| then None
    else
      var tail := name[i + 1..];
      var j := FirstHyphen(tail);
      if j == |tail| then None else Some(Fields(name[..i], tail[..j], tail[j + 1..]))
  }

  lemma FirstHyphenSplits(a: string, b: string)
    requires Without(a, '-')
    ensures FirstHyphen(a + "-" + b) == |a|
  {
    var s, n := a + "-" + b, FirstHyphen(a + "-" + b);
    assert s[|a|] == '-';
    assert forall i :: 0 <= i < |a| ==> s[i] != '-';
  }

  /** Splitting a marker name gives back its pid, start and key. */
  lemma FilenameSplits(p: Process, key: string)
    requires Identified(p)
    ensures SplitFields(Filename(p, key)) == Some(Fields(Decimal(p.pid), p.start, key))
  {
    hide Decimal;
    DecimalParses(p.pid);
    var name, tail := Filename(p, key), p.start + "-" + key;
    assert name == Decimal(p.pid) + "-" + tail;
    assert name[..|Decimal(p.pid)|] == Decimal(p.pid) && name[|Decimal(p.pid)| + 1..] == tail;
    assert tail[..|p.start|] == p.start && tail[|p.start| + 1..] == key;
    FirstHyphenSplits(Decimal(p.pid), tail);
    FirstHyphenSplits(p.start, key);
  }

  predicate EndsWith(s: string, t: string) {
    |t| <= |s| && s[|s| - |t|..] == t
  }

  /** A parked process's marker under this key, whichever process that is. */
  ghost predicate MarkerOf(name: string, key: string) {
    exists p :: Identified(p) && name == Filename(p, key)
  }

  /** Whether one directory entry is accepted. */
  predicate Accepts(name: string, key: string) {
    && EndsWith(name, "-" + key)
    && SplitFields(name).Some?
    && var fields := SplitFields(name).value;
    && Digits(fields.first)
    && var p := ProcessIdentity(Row(Some(ParseDecimal(fields.first)), Some(fields.second)));
    && p.Process?
    && Filename(p, key) == name
  }

  lemma AcceptsExactlyMarkers(name: string, key: string)
    ensures Accepts(name, key) <==> MarkerOf(name, key)
  {
    hide SplitFields;
    forall p | Identified(p) && name == Filename(p, key) ensures Accepts(name, key) {
      FilenameSplits(p, key);
      DecimalParses(p.pid);
      assert name == (Decimal(p.pid) + "-" + p.start) + ("-" + key);
    }
  }

  /** `listing` is the directory, None when it is not one or cannot be read; `files` its regular files. */
  method ParkedMarkers(listing: Option<seq<string>>, files: set<string>, gate: Gate) returns (accepted: seq<string>)
    ensures DrainIdentity(gate).DrainUnknown? || listing.None? ==> accepted == []
    ensures Sorted(accepted)
    ensures DrainIdentity(gate).Drain? && listing.Some? ==> forall name ::
              name in accepted <==> name in listing.value && name in files && MarkerOf(name, DrainIdentity(gate).key)
  {
    hide DrainIdentity;
    hide Accepts;
    hide MarkerOf;
    var drain := DrainIdentity(gate);
    accepted := [];
    if drain.DrainUnknown? || listing.None? { return; }
    for i := 0 to |listing.value|
      invariant forall name ::
          name in accepted <==> name in listing.value[..i] && name in files && MarkerOf(name, drain.key)
    {
      var name := listing.value[i];
      AcceptsExactlyMarkers(name, drain.key);
      assert listing.value[..i + 1] == listing.value[..i] + [name];
      if Accepts(name, drain.key) && name in files {
        accepted := accepted + [name];
      }
    }
    assert listing.value[..|listing.value|] == listing.value;
    accepted := SortNames(accepted);
  }

  predicate Sorted(names: seq<string>) {
    forall i, j :: 0 <= i < j < |names| ==> !StringBefore(names[j], names[i])
  }

  /** Where `name` belongs in sorted `names`. */
  method Position(names: seq<string>, name: string) returns (k: nat)
    requires Sorted(names)
    ensures k <= |names|
    ensures forall i :: 0 <= i < k ==> !StringBefore(name, names[i])
    ensures forall i :: k <= i < |names| ==> !StringBefore(names[i], name)
  {
    k := 0;
    while k < |names| && !StringBefore(name, names[k])
      invariant k <= |names|
      invariant forall i :: 0 <= i < k ==> !StringBefore(name, names[i])
    {
      k := k + 1;
    }
    forall i | k <= i < |names| ensures !StringBefore(names[i], name) {
      StringOrder(name, names[k]);
      StringOrder(names[k], names[i]);
      if StringBefore(names[i], name) {
        StringTransitive(names[i], name, names[k]);
      }
    }
  }

  /** `sorted`. */
  method SortNames(names: seq<string>) returns (sorted: seq<string>)
    ensures Sorted(sorted) && multiset(sorted) == multiset(names)
    ensures forall name :: name in sorted <==> name in names
  {
    sorted := [];
    for n := 0 to |names|
      invariant Sorted(sorted) && multiset(sorted) == multiset(names[..n])
    {
      var k := Position(sorted, names[n]);
      assert sorted == sorted[..k] + sorted[k..] && names[..n + 1] == names[..n] + [names[n]];
      sorted := sorted[..k] + [names[n]] + sorted[k..];
    }
    assert names[..|names|] == names;
    assert forall name :: name in sorted <==> name in multiset(sorted);
  }

  /** Reading only this drain's markers loses nothing an acknowledgement could use. */
  lemma AcceptedMarkersSuffice(census: seq<Row>, present: set<string>, accepted: set<string>, gate: Gate)
    requires DrainIdentity(gate).Drain?
    requires forall name :: name in accepted <==> name in present && MarkerOf(name, DrainIdentity(gate).key)
    ensures Acknowledged(census, accepted, gate, gate) <==> Acknowledged(census, present, gate, gate)
  {
    hide DrainIdentity;
    hide Filename;
    var key := DrainIdentity(gate).key;
    forall i | 0 <= i < |census| && ProcessIdentity(census[i]).Process?
      ensures Filename(ProcessIdentity(census[i]), key) in present <==> Filename(ProcessIdentity(census[i]), key) in accepted
    {
      assert MarkerOf(Filename(ProcessIdentity(census[i]), key), key);
    }
  }
}
