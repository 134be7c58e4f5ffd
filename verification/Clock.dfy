/** The wire timestamp of src/clock.cpp: ISO 8601 in UTC with milliseconds (RFC 3339, section 5.6). */
module Clock {
  import opened Base
  import opened Calendar
  import opened Decimal

  const MS_PER_DAY := 86400000

  /** printf's zero-padded decimal: at least `width` characters, sign included. */
  function Padded(n: int, width: nat): string {
    var text := IntText(n);
    if |text| >= width then text
    else if n < 0 then "-" + ZeroDigits(width - |text|) + text[1..]
    else ZeroDigits(width - |text|) + text
  }

  function ZeroDigits(k: nat): (s: string)
    ensures |s| == k
  {
    seq(k, _ => '0')
  }

  /** A number with the width it is printed in and the character after it. */
  datatype Field = Field(value: int, width: nat, mark: char)

  /** A stretch of digits and the character after it. */
  datatype Piece = Piece(digits: string, mark: char)

  function Joined(ps: seq<Piece>): string {
    if ps == [] then "" else Joined(ps[..|ps| - 1]) + ps[|ps| - 1].digits + [ps[|ps| - 1].mark]
  }

  function Shown(fs: seq<Field>): (ps: seq<Piece>)
    ensures |ps| == |fs|
  {
    if fs == [] then []
    else
      var last := fs[|fs| - 1];
      Shown(fs[..|fs| - 1]) + [Piece(Padded(last.value, last.width), last.mark)]
  }

  function Text(fs: seq<Field>): string { Joined(Shown(fs)) }

  function DateFields(d: Date): seq<Field> { [Field(d.year, 4, '-'), Field(d.month, 2, '-'), Field(d.day, 2, 'T')] }

  function ClockFields(hour: int, minute: int, second: int, millis: int): seq<Field> {
    [Field(hour, 2, ':'), Field(minute, 2, ':'), Field(second, 2, '.'), Field(millis, 3, 'Z')]
  }

  function TimeFields(t: nat): seq<Field> { ClockFields(t / 3600000, t / 60000 % 60, t / 1000 % 60, t % 1000) }

  /** Day and time of day of an instant, before or after the epoch. */
  function InstantFields(ms: int): seq<Field> { DateFields(CivilFromDays(ms / MS_PER_DAY)) + TimeFields(ms % MS_PER_DAY) }

  function Timestamp(ms: int): string { Text(InstantFields(ms)) }

  method FormatIso8601UtcMs(msSinceEpoch: int) returns (text: string)
    ensures text == Timestamp(msSinceEpoch)
  {
    var days := TruncDiv(msSinceEpoch, MS_PER_DAY);
    var msOfDay := msSinceEpoch - days * MS_PER_DAY;
    if msOfDay < 0 {
      msOfDay := msOfDay + MS_PER_DAY;
      days := days - 1;
    }
    DayAndTime(msSinceEpoch, days, msOfDay);
    var date := CivilFromDays(days);
    text := PrintDate(date);
    var hour := msOfDay / 3600000;
    var minute := msOfDay / 60000 % 60;
    var second := msOfDay / 1000 % 60;
    var millis := msOfDay % 1000;
    text := PrintTime(text, hour, minute, second, millis, DateFields(date));
  }

  method PrintDate(date: Date) returns (text: string)
    ensures text == Text(DateFields(date))
  {
    ghost var fs: seq<Field> := [];
    text := "";
    text, fs := Print(text, date.year, 4, '-', fs);
    text, fs := Print(text, date.month, 2, '-', fs);
    text, fs := Print(text, date.day, 2, 'T', fs);
    assert fs == DateFields(date);
  }

  method PrintTime(front: string, hour: int, minute: int, second: int, millis: int, ghost ds: seq<Field>) returns (text: string)
    requires front == Text(ds)
    ensures text == Text(ds + ClockFields(hour, minute, second, millis))
  {
    ghost var fs := ds;
    text, fs := Print(front, hour, 2, ':', fs);
    text, fs := Print(text, minute, 2, ':', fs);
    text, fs := Print(text, second, 2, '.', fs);
    text, fs := Print(text, millis, 3, 'Z', fs);
    FourMore(ds, Field(hour, 2, ':'), Field(minute, 2, ':'), Field(second, 2, '.'), Field(millis, 3, 'Z'));
  }

  lemma FourMore(ds: seq<Field>, a: Field, b: Field, c: Field, d: Field)
    ensures ds + [a] + [b] + [c] + [d] == ds + [a, b, c, d]
  {
  }

  /** One conversion of the format string and the character after it. */
  method Print(text: string, value: int, width: nat, mark: char, ghost fs: seq<Field>)
    returns (r: string, ghost fs': seq<Field>)
    requires text == Text(fs)
    ensures fs' == fs + [Field(value, width, mark)] && r == Text(fs')
  {
    var digits := Padded(value, width);
    r := text + digits + [mark];
    fs' := fs + [Field(value, width, mark)];
    assert fs'[..|fs|] == fs;
    JoinedPush(Shown(fs), Piece(digits, mark));
  }

  lemma JoinedPush(ps: seq<Piece>, p: Piece)
    ensures Joined(ps + [p]) == Joined(ps) + p.digits + [p.mark]
  {
    assert (ps + [p])[..|ps|] == ps;
  }

  lemma DayAndTime(ms: int, days: int, t: int)
    requires ms == days * MS_PER_DAY + t && 0 <= t < MS_PER_DAY
    ensures days == ms / MS_PER_DAY && t == ms % MS_PER_DAY
  {
  }

  // ------------------------------------------------- reading back

  predicate Fits(f: Field) { 0 <= f.value < Pow10(f.width) && f.width > 0 && !IsDigit(f.mark) }

  predicate AllFit(fs: seq<Field>) { forall i :: 0 <= i < |fs| ==> Fits(fs[i]) }

  lemma {:induction false} ValueOfZeroDigits(k: nat, s: string)
    requires AllDigits(s)
    ensures AllDigits(ZeroDigits(k) + s) && Value(ZeroDigits(k) + s) == Value(s)
  {
    if s == [] {
      assert ZeroDigits(k) + s == ZeroDigits(k);
      if k > 0 {
        assert ZeroDigits(k)[..k - 1] == ZeroDigits(k - 1);
        ValueOfZeroDigits(k - 1, s);
        assert ZeroDigits(k - 1) + s == ZeroDigits(k - 1);
      }
    } else {
      var front := s[..|s| - 1];
      ValueOfZeroDigits(k, front);
      assert (ZeroDigits(k) + s)[..|ZeroDigits(k) + s| - 1] == ZeroDigits(k) + front;
    }
  }

  /** A number that fits is printed in exactly its width, and its digits say its value. */
  lemma PaddedFits(n: nat, width: nat)
    requires n < Pow10(width) && width > 0
    ensures |Padded(n, width)| == width && AllDigits(Padded(n, width)) && Value(Padded(n, width)) == n
  {
    DigitCount(n, width);
    ValueOfDigits(n);
    ValueOfZeroDigits(width - |Digits(n)|, Digits(n));
  }

  /** A negative number is padded with zeros behind its sign to at least its width. */
  lemma PaddedNegative(n: int, width: nat)
    requires n < 0
    ensures var p := Padded(n, width);
            && |p| == Max(width, 1 + |Digits(-n)|) && p[0] == '-' && AllDigits(p[1..]) && Value(p[1..]) == -n
  {
    hide Digits, Value, ZeroDigits;
    var d := Digits(-n);
    ValueOfDigits(-n);
    Behind("-", d);
    if 1 + |d| < width {
      ValueOfZeroDigits(width - 1 - |d|, d);
      Behind("-", ZeroDigits(width - 1 - |d|) + d);
      Assoc("-", ZeroDigits(width - 1 - |d|), d);
    }
  }

  lemma Behind(sign: string, text: string)
    requires |sign| == 1
    ensures (sign + text)[0] == sign[0] && (sign + text)[1..] == text
  {
  }

  /** Values of fields of the given widths and marks, read from the end of a text. */
  function ReadValues(s: string, shape: seq<Field>): Option<seq<int>> {
    if shape == [] then (if s == "" then Some([]) else None)
    else
      var last := shape[|shape| - 1];
      var at := |s| - last.width - 1;
      if at < 0 || s[|s| - 1] != last.mark || !AllDigits(s[at..|s| - 1]) then None
      else match ReadValues(s[..at], shape[..|shape| - 1])
           case None => None
           case Some(vs) => Some(vs + [Value(s[at..|s| - 1])])
  }

  function Values(fs: seq<Field>): (vs: seq<int>)
    ensures |vs| == |fs|
  {
    if fs == [] then [] else Values(fs[..|fs| - 1]) + [fs[|fs| - 1].value]
  }

  function Numbers(ps: seq<Piece>): (vs: seq<int>)
    requires Digital(ps)
    ensures |vs| == |ps|
  {
    if ps == [] then [] else Numbers(ps[..|ps| - 1]) + [Value(ps[|ps| - 1].digits)]
  }

  predicate Digital(ps: seq<Piece>) { forall i :: 0 <= i < |ps| ==> AllDigits(ps[i].digits) }

  /** Pieces of the shape's widths and marks. */
  predicate Matches(ps: seq<Piece>, shape: seq<Field>) {
    |ps| == |shape| && forall i :: 0 <= i < |ps| ==> |ps[i].digits| == shape[i].width && ps[i].mark == shape[i].mark
  }

  /** Pieces that say what the fields say, in their widths. */
  predicate Says(ps: seq<Piece>, fs: seq<Field>) { Digital(ps) && Matches(ps, fs) && Numbers(ps) == Values(fs) }

  predicate SaysField(p: Piece, f: Field) {
    AllDigits(p.digits) && |p.digits| == f.width && p.mark == f.mark && Value(p.digits) == f.value
  }

  lemma {:induction false} ShownAt(fs: seq<Field>, i: nat)
    requires i < |fs|
    ensures Shown(fs)[i] == Piece(Padded(fs[i].value, fs[i].width), fs[i].mark)
  {
    if i < |fs| - 1 {
      ShownAt(fs[..|fs| - 1], i);
    }
  }

  lemma PieceFits(fs: seq<Field>, i: nat)
    requires i < |fs| && Fits(fs[i])
    ensures SaysField(Shown(fs)[i], fs[i])
  {
    ShownAt(fs, i);
    PaddedFits(fs[i].value, fs[i].width);
  }

  lemma {:induction false} PiecesSay(ps: seq<Piece>, fs: seq<Field>)
    requires |ps| == |fs| && forall i :: 0 <= i < |fs| ==> SaysField(ps[i], fs[i])
    ensures Says(ps, fs)
  {
    if ps != [] {
      var n := |ps| - 1;
      PiecesSay(ps[..n], fs[..n]);
    }
  }

  lemma ShownFits(fs: seq<Field>)
    requires AllFit(fs)
    ensures Says(Shown(fs), fs)
  {
    forall i | 0 <= i < |fs|
      ensures SaysField(Shown(fs)[i], fs[i])
    {
      assert Fits(fs[i]);
      PieceFits(fs, i);
    }
    PiecesSay(Shown(fs), fs);
  }

  /** The last piece of a text is read first. */
  lemma ReadLast(text: string, front: string, digits: string, shape: seq<Field>, vs: seq<int>)
    requires shape != [] && shape[|shape| - 1].width == |digits| && AllDigits(digits)
    requires text == front + digits + [shape[|shape| - 1].mark]
    requires ReadValues(front, shape[..|shape| - 1]) == Some(vs)
    ensures ReadValues(text, shape) == Some(vs + [Value(digits)])
  {
    LastPart(front, digits, shape[|shape| - 1].mark);
  }

  lemma {:induction false} ReadJoined(ps: seq<Piece>, shape: seq<Field>)
    requires Digital(ps) && Matches(ps, shape)
    ensures ReadValues(Joined(ps), shape) == Some(Numbers(ps))
  {
    if ps != [] {
      var n := |ps| - 1;
      ReadJoined(ps[..n], shape[..n]);
      ReadLast(Joined(ps), Joined(ps[..n]), ps[n].digits, shape, Numbers(ps[..n]));
    }
  }

  lemma LastPart(front: string, digits: string, mark: char)
    ensures var s := front + digits + [mark];
            var at := |s| - |digits| - 1;
            at == |front| && s[..at] == front && s[at..|s| - 1] == digits && s[|s| - 1] == mark
  {
  }

  // ------------------------------------------------- order

  /** Bytewise order of two texts that are not prefixes of one another. */
  predicate TextBefore(s: string, t: string) {
    exists k :: 0 <= k < |s| && k < |t| && s[k] < t[k] && s[..k] == t[..k]
  }

  predicate ValuesBefore(a: seq<int>, b: seq<int>)
    requires |a| == |b|
  {
    a != [] &&
    var n := |a| - 1;
    (ValuesBefore(a[..n], b[..n]) || (a[..n] == b[..n] && a[n] < b[n]))
  }

  /** Two numbers differ in all but the last digit, or only there. */
  lemma TenOrder(v: int, d: int, w: int, e: int)
    requires 0 <= d < 10 && 0 <= e < 10 && v * 10 + d < w * 10 + e
    ensures v < w || (v == w && d < e)
  {
  }

  lemma {:induction false} DigitsOrder(s: string, t: string)
    requires AllDigits(s) && AllDigits(t) && |s| == |t| && Value(s) < Value(t)
    ensures TextBefore(s, t)
  {
    assert s != [];
    var n := |s| - 1;
    TenOrder(Value(s[..n]), s[n] as int - '0' as int, Value(t[..n]), t[n] as int - '0' as int);
    if Value(s[..n]) < Value(t[..n]) {
      DigitsOrder(s[..n], t[..n]);
      LongerBefore(s, t, n);
    } else {
      SameValue(s[..n], t[..n]);
      assert s[n] < t[n];
    }
  }

  lemma LongerBefore(s: string, t: string, n: nat)
    requires n <= |s| && n <= |t| && TextBefore(s[..n], t[..n])
    ensures TextBefore(s, t)
  {
    var k :| 0 <= k < n && s[..n][k] < t[..n][k] && s[..n][..k] == t[..n][..k];
    assert s[..n][..k] == s[..k] && t[..n][..k] == t[..k];
  }

  lemma {:induction false} SameValue(s: string, t: string)
    requires AllDigits(s) && AllDigits(t) && |s| == |t| && Value(s) == Value(t)
    ensures s == t
  {
    if s != [] {
      var n := |s| - 1;
      SameValue(s[..n], t[..n]);
      assert s == s[..n] + [s[n]] && t == t[..n] + [t[n]];
    }
  }

  lemma ExtendBefore(p: string, s: string, t: string, x: string, y: string)
    requires TextBefore(s, t)
    ensures TextBefore(p + s + x, p + t + y)
  {
    var k :| 0 <= k < |s| && k < |t| && s[k] < t[k] && s[..k] == t[..k];
    var a, b := p + s + x, p + t + y;
    var j := |p| + k;
    assert a[..j] == p + s[..k] && b[..j] == p + t[..k];
    assert a[j] == s[k] && b[j] == t[k];
  }

  /** Texts that differ before their last field, and texts that differ in it. */
  lemma FrontDecides(a: string, b: string, x: string, y: string, mark: char)
    requires TextBefore(a, b)
    ensures TextBefore(a + x + [mark], b + y + [mark])
  {
    ExtendBefore("", a, b, x + [mark], y + [mark]);
    Framed(a, x, mark);
    Framed(b, y, mark);
  }

  lemma LastDecides(a: string, x: string, y: string, mark: char)
    requires AllDigits(x) && AllDigits(y) && |x| == |y| && Value(x) < Value(y)
    ensures TextBefore(a + x + [mark], a + y + [mark])
  {
    DigitsOrder(x, y);
    ExtendBefore(a, x, y, [mark], [mark]);
  }

  predicate SameShape(ps: seq<Piece>, qs: seq<Piece>) {
    |ps| == |qs| && forall i :: 0 <= i < |ps| ==> |ps[i].digits| == |qs[i].digits| && ps[i].mark == qs[i].mark
  }

  /** Texts of pieces with the same widths sort as their numbers. */
  lemma {:induction false} JoinedOrder(ps: seq<Piece>, qs: seq<Piece>)
    requires Digital(ps) && Digital(qs) && SameShape(ps, qs) && ValuesBefore(Numbers(ps), Numbers(qs))
    ensures TextBefore(Joined(ps), Joined(qs))
  {
    var n := |ps| - 1;
    assert Numbers(ps)[..n] == Numbers(ps[..n]) && Numbers(qs)[..n] == Numbers(qs[..n]);
    if ValuesBefore(Numbers(ps[..n]), Numbers(qs[..n])) {
      JoinedOrder(ps[..n], qs[..n]);
      FrontDecides(Joined(ps[..n]), Joined(qs[..n]), ps[n].digits, qs[n].digits, ps[n].mark);
    } else {
      SamePieces(ps[..n], qs[..n]);
      LastDecides(Joined(ps[..n]), ps[n].digits, qs[n].digits, ps[n].mark);
    }
  }

  lemma Framed(front: string, x: string, mark: char)
    ensures "" + front + (x + [mark]) == front + x + [mark]
  {
  }

  lemma {:induction false} NumbersAt(ps: seq<Piece>, i: nat)
    requires Digital(ps) && i < |ps|
    ensures Numbers(ps)[i] == Value(ps[i].digits)
  {
    if i < |ps| - 1 {
      NumbersAt(ps[..|ps| - 1], i);
    }
  }

  lemma SamePieces(ps: seq<Piece>, qs: seq<Piece>)
    requires Digital(ps) && Digital(qs) && SameShape(ps, qs) && Numbers(ps) == Numbers(qs)
    ensures ps == qs
  {
    forall i | 0 <= i < |ps|
      ensures ps[i] == qs[i]
    {
      NumbersAt(ps, i);
      NumbersAt(qs, i);
      SameValue(ps[i].digits, qs[i].digits);
    }
  }

  // ------------------------------------------------- instants

  function YearOf(ms: int): int { CivilFromDays(ms / MS_PER_DAY).year }

  lemma Powers()
    ensures Pow10(2) == 100 && Pow10(3) == 1000 && Pow10(4) == 10000
  {
    assert Pow10(1) == 10 && Pow10(2) == 100;
  }

  lemma DateFits(d: Date)
    requires IsDate(d) && 0 <= d.year <= 9999
    ensures AllFit(DateFields(d))
  {
    Powers();
  }

  lemma TimeFits(t: nat)
    requires t < MS_PER_DAY
    ensures AllFit(TimeFields(t))
  {
    Powers();
  }

  lemma InstantFits(ms: int)
    requires 0 <= YearOf(ms) <= 9999
    ensures AllFit(InstantFields(ms)) && |InstantFields(ms)| == 7
  {
    CivilIsInverse(ms / MS_PER_DAY);
    DateFits(CivilFromDays(ms / MS_PER_DAY));
    TimeFits(ms % MS_PER_DAY);
  }

  /** Hours, minutes, seconds and milliseconds make up the time of day. */
  lemma TimeOfDay(t: int)
    requires 0 <= t < MS_PER_DAY
    ensures t == t / 3600000 * 3600000 + t / 60000 % 60 * 60000 + t / 1000 % 60 * 1000 + t % 1000
  {
    var seconds, minutes := t / 1000, t / 60000;
    assert minutes == seconds / 60;
    assert t / 3600000 == minutes / 60;
  }

  /** "YYYY-MM-DDTHH:MM:SS.mmmZ". */
  const SHAPE := [Field(0, 4, '-'), Field(0, 2, '-'), Field(0, 2, 'T'), Field(0, 2, ':'), Field(0, 2, ':'),
                  Field(0, 2, '.'), Field(0, 3, 'Z')]

  function InstantOf(vs: seq<int>): int
    requires |vs| == 7
  {
    DayNumber(Date(vs[0], vs[1], vs[2])) * MS_PER_DAY + vs[3] * 3600000 + vs[4] * 60000 + vs[5] * 1000 + vs[6]
  }

  /** Reads a wire timestamp: digits of fixed widths, and the calendar's day count. */
  function ReadTimestamp(s: string): Option<int> {
    match ReadValues(s, SHAPE)
    case None => None
    case Some(vs) => if |vs| == 7 then Some(InstantOf(vs)) else None
  }

  lemma {:induction false} ValuesAre(fs: seq<Field>, i: nat)
    requires i < |fs|
    ensures Values(fs)[i] == fs[i].value
  {
    if i < |fs| - 1 {
      ValuesAre(fs[..|fs| - 1], i);
    }
  }

  lemma InstantOfFields(ms: int)
    ensures InstantOf(Values(InstantFields(ms))) == ms
  {
    var fs := InstantFields(ms);
    forall i | 0 <= i < 7
      ensures Values(fs)[i] == fs[i].value
    {
      ValuesAre(fs, i);
    }
    CivilIsInverse(ms / MS_PER_DAY);
    TimeOfDay(ms % MS_PER_DAY);
    var d := CivilFromDays(ms / MS_PER_DAY);
    assert Date(Values(fs)[0], Values(fs)[1], Values(fs)[2]) == d;
  }

  /** Every millisecond of the years 0000 to 9999 is read back from its timestamp. */
  lemma TimestampRoundTrip(ms: int)
    requires 0 <= YearOf(ms) <= 9999
    ensures ReadTimestamp(Timestamp(ms)) == Some(ms)
  {
    InstantFits(ms);
    ShownFits(InstantFields(ms));
    ReadJoined(Shown(InstantFields(ms)), SHAPE);
    InstantOfFields(ms);
  }

  lemma {:induction false} BeforeInFront(a: seq<int>, b: seq<int>, n: nat)
    requires |a| == |b| && n <= |a| && ValuesBefore(a[..n], b[..n])
    ensures ValuesBefore(a, b)
    decreases |a| - n
  {
    if n < |a| {
      assert a[..n + 1][..n] == a[..n] && b[..n + 1][..n] == b[..n];
      BeforeInFront(a, b, n + 1);
    } else {
      assert a[..n] == a && b[..n] == b;
    }
  }

  lemma FirstDifference(a: seq<int>, b: seq<int>, n: nat)
    requires |a| == |b| && n < |a| && a[..n] == b[..n] && a[n] < b[n]
    ensures ValuesBefore(a, b)
  {
    assert a[..n + 1][..n] == a[..n] && b[..n + 1][..n] == b[..n];
    BeforeInFront(a, b, n + 1);
  }

  /** Hours, minutes and seconds are nested units. */
  lemma Units(t: nat)
    ensures t / 60000 == t / 1000 / 60 && t / 3600000 == t / 60000 / 60
  {
  }

  lemma SixtyOrder(a: nat, b: nat)
    requires a <= b
    ensures a / 60 <= b / 60
    ensures a / 60 == b / 60 ==> a % 60 <= b % 60 && (a % 60 == b % 60 ==> a == b)
  {
  }

  lemma ThousandOrder(a: nat, b: nat)
    requires a < b
    ensures a / 1000 <= b / 1000 && (a / 1000 == b / 1000 ==> a % 1000 < b % 1000)
  {
  }

  lemma TimeOrder(t: nat, u: nat)
    requires t < u
    ensures t / 3600000 <= u / 3600000
    ensures t / 3600000 == u / 3600000 ==> t / 60000 % 60 <= u / 60000 % 60
    ensures t / 60000 == u / 60000 ==> t / 1000 % 60 <= u / 1000 % 60
    ensures t / 1000 == u / 1000 ==> t % 1000 < u % 1000
    ensures t / 3600000 == u / 3600000 && t / 60000 % 60 == u / 60000 % 60 ==> t / 60000 == u / 60000
    ensures t / 60000 == u / 60000 && t / 1000 % 60 == u / 1000 % 60 ==> t / 1000 == u / 1000
  {
    Units(t);
    Units(u);
    ThousandOrder(t, u);
    SixtyOrder(t / 1000, u / 1000);
    SixtyOrder(t / 60000, u / 60000);
  }

  lemma SameDayOrder(d: Date, t: int, u: int)
    requires 0 <= t < u < MS_PER_DAY
    ensures ValuesBefore(Values(DateFields(d) + TimeFields(t)), Values(DateFields(d) + TimeFields(u)))
  {
    var fs, gs := DateFields(d) + TimeFields(t), DateFields(d) + TimeFields(u);
    forall i | 0 <= i < 7
      ensures Values(fs)[i] == fs[i].value && Values(gs)[i] == gs[i].value
    {
      ValuesAre(fs, i);
      ValuesAre(gs, i);
    }
    TimeOrder(t, u);
    var n := if fs[3].value != gs[3].value then 3 else if fs[4].value != gs[4].value then 4
             else if fs[5].value != gs[5].value then 5 else 6;
    FirstDifference(Values(fs), Values(gs), n);
  }

  lemma DayOrder(d: Date, e: Date, t: nat, u: nat)
    requires Before(d, e)
    ensures ValuesBefore(Values(DateFields(d) + TimeFields(t)), Values(DateFields(e) + TimeFields(u)))
  {
    var fs, gs := DateFields(d) + TimeFields(t), DateFields(e) + TimeFields(u);
    forall i | 0 <= i < 3
      ensures Values(fs)[i] == fs[i].value && Values(gs)[i] == gs[i].value
    {
      ValuesAre(fs, i);
      ValuesAre(gs, i);
    }
    var n := if d.year != e.year then 0 else if d.month != e.month then 1 else 2;
    FirstDifference(Values(fs), Values(gs), n);
  }

  lemma SaidOrder(ps: seq<Piece>, qs: seq<Piece>, fs: seq<Field>, gs: seq<Field>)
    requires Says(ps, fs) && Says(qs, gs) && |fs| == |gs| && ValuesBefore(Values(fs), Values(gs))
    requires forall i :: 0 <= i < |fs| ==> fs[i].width == gs[i].width && fs[i].mark == gs[i].mark
    ensures TextBefore(Joined(ps), Joined(qs))
  {
    JoinedOrder(ps, qs);
  }

  lemma FieldsOrder(fs: seq<Field>, gs: seq<Field>, ms: int, ms': int)
    requires fs == InstantFields(ms) && gs == InstantFields(ms') && ValuesBefore(Values(fs), Values(gs))
    requires 0 <= YearOf(ms) <= 9999 && 0 <= YearOf(ms') <= 9999
    ensures TextBefore(Text(fs), Text(gs))
  {
    InstantFits(ms);
    InstantFits(ms');
    ShownFits(fs);
    ShownFits(gs);
    SaidOrder(Shown(fs), Shown(gs), fs, gs);
  }

  /** Within those years timestamps sort, byte by byte, in time order. */
  lemma TimestampsSort(ms: int, ms': int)
    requires ms < ms' && 0 <= YearOf(ms) <= 9999 && 0 <= YearOf(ms') <= 9999
    ensures TextBefore(Timestamp(ms), Timestamp(ms'))
  {
    var day, day' := ms / MS_PER_DAY, ms' / MS_PER_DAY;
    if day == day' {
      SameDayOrder(CivilFromDays(day), ms % MS_PER_DAY, ms' % MS_PER_DAY);
    } else {
      DatesFollowDays(day, day');
      DayOrder(CivilFromDays(day), CivilFromDays(day'), ms % MS_PER_DAY, ms' % MS_PER_DAY);
    }
    FieldsOrder(InstantFields(ms), InstantFields(ms'), ms, ms');
  }

  lemma DatesFollowDays(day: int, day': int)
    requires day < day'
    ensures Before(CivilFromDays(day), CivilFromDays(day'))
  {
    CivilIsInverse(day);
    CivilIsInverse(day');
    var d, e := CivilFromDays(day), CivilFromDays(day');
    if !Before(d, e) && d != e {
      DayNumberGrows(e, d);
    }
  }
}
