/** Writing and reading the time stamps of a TTML document (internal/parsers/ttml.go, formatTime and
    ttmlTimeToMs). */
module TtmlTime {

  import opened Rounding
  import opened Unicode

  function Digit(n: nat): char
    requires n < 10
  {
    ['0', '1', '2', '3', '4', '5', '6', '7', '8', '9'][n]
  }

  predicate IsDigit(c: char) { '0' <= c <= '9' }

  predicate Numeral(s: string) { s != "" && forall i | 0 <= i < |s| :: IsDigit(s[i]) }

  function DigitValue(c: char): (d: nat)
    requires IsDigit(c)
    ensures d < 10
  {
    c as int - '0' as int
  }

  function ValueOf(s: string): nat
    requires forall i | 0 <= i < |s| :: IsDigit(s[i])
  {
    if s == "" then 0 else 10 * ValueOf(s[..|s| - 1]) + DigitValue(s[|s| - 1])
  }

  function Power10(k: nat): (p: nat)
    ensures p > 0
  {
    if k == 0 then 1 else 10 * Power10(k - 1)
  }

  /** %0wd */
  function Padded(n: nat, w: nat): (s: string)
    requires w > 0
    ensures Numeral(s) && ValueOf(s) == n && |s| >= w
    ensures n < Power10(w) ==> |s| == w
    decreases n, w
  {
    var tail := [Digit(n % 10)];
    if w == 1 && n < 10 then tail
    else
      var head := Padded(n / 10, if w == 1 then 1 else w - 1);
      assert (head + tail)[..|head|] == head;
      head + tail
  }

  /** "%02d:%02d.%03d" */
  function FormatTime(ms: int): string {
    var r := if ms < 0 then 0 else ms;
    Padded(r / 60000, 2) + ":" + Padded(r % 60000 / 1000, 2) + "." + Padded(r % 1000, 3)
  }

  // ---- reading ----

  /** strings.Split(s, ":") */
  function SplitColons(s: string): (parts: seq<string>)
    ensures |parts| >= 1
  {
    if s == "" then [""]
    else
      var rest := SplitColons(s[1..]);
      if s[0] == ':' then [""] + rest else [[s[0]] + rest[0]] + rest[1..]
  }

  /** Lower case, as far as the suffixes looked for are concerned. */
  function Lower(s: string): string {
    seq(|s|, i requires 0 <= i < |s| => if 'A' <= s[i] <= 'Z' then (s[i] as int + 32) as char else s[i])
  }

  predicate HasSuffix(s: string, t: string) { |t| <= |s| && s[|s| - |t|..] == t }

  function CutSuffix(s: string, t: string): string { if HasSuffix(s, t) then s[..|s| - |t|] else s }

  /** strconv.ParseFloat with its error dropped; infinities and NaN, which make the result 0, are left out. */
  type Float = string -> real

  function TimeToMs(f: Float, str: string): int {
    var s := Trim(str);
    if s == "" then 0
    else if ':' !in s then
      if HasSuffix(Lower(s), "ms") then Round(f(Trim(s[..|s| - 2])))
      else if HasSuffix(Lower(s), "s") then Round(f(Trim(s[..|s| - 1])) * 1000.0)
      else if HasSuffix(Lower(s), "m") then Round(f(Trim(s[..|s| - 1])) * 60000.0)
      else if HasSuffix(Lower(s), "h") then Round(f(Trim(s[..|s| - 1])) * 3600000.0)
      else Round(f(s) * 1000.0)
    else
      var parts := SplitColons(s);
      if |parts| == 3 then
        var hours, minutes, seconds := f(Trim(parts[0])), f(Trim(parts[1])), f(CutSuffix(Lower(Trim(parts[2])), "s"));
        Round((hours * 3600.0 + minutes * 60.0 + seconds) * 1000.0)
      else if |parts| == 2 then
        Round((f(Trim(parts[0])) * 60.0 + f(CutSuffix(Lower(Trim(parts[1])), "s"))) * 1000.0)
      else Round(f(Trim(CutSuffix(Lower(s), "s"))) * 1000.0)
  }

  /** The value of the digits after a decimal point. */
  function Fraction(t: string): real
    requires Numeral(t)
  {
    ValueOf(t) as real / Power10(|t|) as real
  }

  lemma Thousandth(t: string)
    requires Numeral(t) && |t| == 3
    ensures Fraction(t) == ValueOf(t) as real / 1000.0
  {
    assert Power10(3) == 1000 by { assert Power10(1) == 10 && Power10(2) == 100; }
  }

  /** Plain decimal numbers are read exactly. */
  ghost predicate ReadsDecimals(f: Float) {
    && (forall s | Numeral(s) :: f(s) == ValueOf(s) as real)
    && (forall s, t | Numeral(s) && Numeral(t) ::
          f(s + "." + t) == ValueOf(s) as real + Fraction(t))
  }

  lemma {:induction false} SplitOne(a: string, b: string)
    requires ':' !in a && ':' !in b
    ensures SplitColons(a + ":" + b) == [a, b]
  {
    var s := a + ":" + b;
    if a == "" {
      assert s[1..] == b;
      SplitNone(b);
    } else {
      assert s[1..] == a[1..] + ":" + b;
      SplitOne(a[1..], b);
      assert [a[0]] + a[1..] == a;
    }
  }

  lemma {:induction false} SplitNone(b: string)
    requires ':' !in b
    ensures SplitColons(b) == [b]
  {
    if b != "" {
      SplitNone(b[1..]);
      assert [b[0]] + b[1..] == b;
    }
  }

  /** Characters a time stamp is made of. */
  predicate Plain(c: char) { IsDigit(c) || c == '.' || c == ':' }

  lemma PlainStays(s: string)
    requires s != "" && forall i | 0 <= i < |s| :: Plain(s[i])
    ensures Trim(s) == s && Lower(s) == s && CutSuffix(s, "s") == s
  {
    TrimIs(s);
    assert s[|s| - 1..][0] == s[|s| - 1] != 's';
  }

  /** A time stamp has one colon and nothing to trim, so it is read as minutes and seconds. */
  lemma {:induction false} ReadStamp(f: Float, m: string, tail: string)
    requires m != "" && forall i | 0 <= i < |m| :: IsDigit(m[i])
    requires tail != "" && forall i | 0 <= i < |tail| :: IsDigit(tail[i]) || tail[i] == '.'
    ensures TimeToMs(f, m + ":" + tail) == Round((f(m) * 60.0 + f(tail)) * 1000.0)
  {
    var text := m + ":" + tail;
    assert text[|m|] == ':';
    PlainStays(text);
    PlainStays(m);
    PlainStays(tail);
    SplitOne(m, tail);
    TwoParts(f, text, m, tail);
  }

  lemma {:induction false} TwoParts(f: Float, text: string, m: string, tail: string)
    requires text != "" && ':' in text && Trim(text) == text && SplitColons(text) == [m, tail]
    requires Trim(m) == m && Trim(tail) == tail && Lower(tail) == tail && CutSuffix(tail, "s") == tail
    ensures TimeToMs(f, text) == Round((f(m) * 60.0 + f(tail)) * 1000.0)
  {
    hide SplitColons, Trim, Lower, CutSuffix, Round, HasSuffix;
  }

  lemma Weigh(m: int, sec: int, milli: int)
    ensures (m as real * 60.0 + (sec as real + milli as real / 1000.0)) * 1000.0
         == (m * 60000 + sec * 1000 + milli) as real
  {
    assert (m * 60000 + sec * 1000 + milli) as real == m as real * 60000.0 + sec as real * 1000.0 + milli as real;
  }

  lemma Cut(r: nat)
    ensures r == r / 60000 * 60000 + r % 60000 / 1000 * 1000 + r % 1000
  {
  }

  lemma ReadsThousandths(f: Float, m: string, sec: string, milli: string)
    requires ReadsDecimals(f) && Numeral(m) && Numeral(sec) && Numeral(milli) && |milli| == 3
    ensures f(m) == ValueOf(m) as real
    ensures f(sec + "." + milli) == ValueOf(sec) as real + ValueOf(milli) as real / 1000.0
  {
    hide Fraction, ValueOf, Numeral;
    Thousandth(milli);
  }

  lemma DigitsAll(sec: string, milli: string)
    requires Numeral(sec) && Numeral(milli)
    ensures forall i | 0 <= i < |sec + "." + milli| :: IsDigit((sec + "." + milli)[i]) || (sec + "." + milli)[i] == '.'
  {
  }

  lemma {:induction false} StampMeans(f: Float, m: string, sec: string, milli: string)
    requires ReadsDecimals(f) && Numeral(m) && Numeral(sec) && Numeral(milli) && |milli| == 3
    ensures TimeToMs(f, m + ":" + (sec + "." + milli)) == ValueOf(m) * 60000 + ValueOf(sec) * 1000 + ValueOf(milli)
  {
    assert m != "" && forall i | 0 <= i < |m| :: IsDigit(m[i]);
    hide *;
    DigitsAll(sec, milli);
    ReadStamp(f, m, sec + "." + milli);
    ReadsThousandths(f, m, sec, milli);
    var vm, vs, vl := ValueOf(m), ValueOf(sec), ValueOf(milli);
    Weigh(vm, vs, vl);
    RoundInt(vm * 60000 + vs * 1000 + vl);
  }

  /** The three numbers of a time stamp. */
  lemma FormatIs(ms: int, m: nat, sec: nat, milli: nat)
    requires m == (if ms < 0 then 0 else ms) / 60000 && sec == (if ms < 0 then 0 else ms) % 60000 / 1000
    requires milli == (if ms < 0 then 0 else ms) % 1000
    ensures FormatTime(ms) == Padded(m, 2) + ":" + (Padded(sec, 2) + "." + Padded(milli, 3))
    ensures milli < 1000
  {
    hide Padded;
  }

  lemma Thousandths(n: nat)
    requires n < 1000
    ensures |Padded(n, 3)| == 3
  {
    assert Power10(1) == 10 && Power10(2) == 100 && Power10(3) == 1000;
  }

  /** Reading a time stamp gives back the time, a negative one as zero. */
  lemma {:induction false} TimeRoundTrip(f: Float, ms: int)
    requires ReadsDecimals(f)
    ensures TimeToMs(f, FormatTime(ms)) == if ms < 0 then 0 else ms
  {
    hide *;
    var r: nat := if ms < 0 then 0 else ms;
    var m, sec, milli := r / 60000, r % 60000 / 1000, r % 1000;
    Cut(r);
    FormatIs(ms, m, sec, milli);
    Thousandths(milli);
    StampMeans(f, Padded(m, 2), Padded(sec, 2), Padded(milli, 3));
  }
}
