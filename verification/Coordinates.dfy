/**
 Binlog coordinates: file and position, or a set of GTIDs.
 */
module Coordinates {
  import opened Wrappers
  import opened Decimal

  const MAX_INT := 0x7FFF_FFFF_FFFF_FFFF
  const MIN_INT := -0x8000_0000_0000_0000

  predicate IsInt(i: int) {
    MIN_INT <= i <= MAX_INT
  }

  /** Arithmetic on machine integers wraps around. */
  function Wrapped(i: int): (r: int)
    ensures IsInt(r) && (IsInt(i) ==> r == i)
  {
    (i - MIN_INT) % 0x1_0000_0000_0000_0000 + MIN_INT
  }

  // ----- integers in text

  function PrintInt(i: int): string {
    if i < 0 then "-" + Print(-i) else Print(i)
  }

  /** An optional sign and decimal digits, within the range of a machine integer. */
  function ParseInt(s: string): Option<int> {
    var digits := if s != [] && (s[0] == '-' || s[0] == '+') then s[1..] else s;
    var n := Parse(digits);
    if n.None? then None
    else
      var value: int := n.value;
      var i := if s[0] == '-' then -value else value;
      if IsInt(i) then Some(i) else None
  }

  lemma ParsePrintInt(i: int)
    requires IsInt(i)
    ensures ParseInt(PrintInt(i)) == Some(i)
  {
    var s := PrintInt(i);
    if i < 0 {
      ParsePrint(-i);
      assert s[0] == '-' && s[1..] == Print(-i);
    } else {
      ParsePrint(i);
      assert s == Print(i) && IsDigit(s[0]);
    }
  }

  lemma {:induction false} ParseNeedsDigits(s: string, c: char)
    requires c in s && !IsDigit(c)
    ensures Parse(s).None?
  {
    if |s| > 1 && s[|s| - 1] != c {
      ParseNeedsDigits(s[..|s| - 1], c);
    }
  }

  lemma ParseIntNeedsDigits(s: string, c: char)
    requires c in s && !IsDigit(c) && c != '-' && c != '+'
    ensures ParseInt(s).None?
  {
    var digits := if s != [] && (s[0] == '-' || s[0] == '+') then s[1..] else s;
    assert c in digits;
    ParseNeedsDigits(digits, c);
  }

  // ----- files and positions

  datatype FileCoordinates = FileCoordinates(logFile: string, logPos: int, eventSize: int)

  /** The string up to its first `c`, and the rest behind it. */
  function Cut(s: string, c: char): Option<(string, string)> {
    if s == [] then None
    else if s[0] == c then Some(([], s[1..]))
    else
      var rest := Cut(s[1..], c);
      if rest.None? then None else Some(([s[0]] + rest.value.0, rest.value.1))
  }

  function ParseFileCoordinates(s: string): Result<FileCoordinates> {
    var tokens := Cut(s, ':');
    if tokens.None? then Err("expected file:pos")
    else
      var logPos := ParseInt(tokens.value.1);
      if logPos.None? then Err("invalid pos") else Ok(FileCoordinates(tokens.value.0, logPos.value, 0))
  }

  function DisplayString(c: FileCoordinates): string {
    c.logFile + ":" + PrintInt(c.logPos)
  }

  lemma {:induction false} CutAt(a: string, c: char, b: string)
    ensures c !in a ==> Cut(a + [c] + b, c) == Some((a, b))
    ensures c in a ==> Cut(a + [c] + b, c).Some? && c in Cut(a + [c] + b, c).value.1
  {
    if a == [] {
      assert a + [c] + b == [c] + b && ([c] + b)[1..] == b;
    } else {
      assert (a + [c] + b)[0] == a[0] && (a + [c] + b)[1..] == a[1..] + [c] + b;
      CutAt(a[1..], c, b);
      assert a == [a[0]] + a[1..];
    }
  }

  /** Coordinates survive printing and parsing if and only if the file name has no colon. */
  lemma RoundTripExactlyWhen(c: FileCoordinates)
    requires IsInt(c.logPos)
    ensures ParseFileCoordinates(DisplayString(c)) == Ok(c.(eventSize := 0)) <==> ':' !in c.logFile
    ensures ':' in c.logFile ==> ParseFileCoordinates(DisplayString(c)).Err?
  {
    CutAt(c.logFile, ':', PrintInt(c.logPos));
    assert DisplayString(c) == c.logFile + [':'] + PrintInt(c.logPos);
    if ':' in c.logFile {
      ParseIntNeedsDigits(Cut(DisplayString(c), ':').value.1, ':');
    } else {
      ParsePrintInt(c.logPos);
    }
  }

  /** What follows the last dot. */
  function LastToken(s: string): string {
    if s == [] || s[|s| - 1] == '.' then [] else LastToken(s[..|s| - 1]) + [s[|s| - 1]]
  }

  /** The number at the end of the file name; 0 when there is none. */
  function FileNumber(c: FileCoordinates): int {
    var n := ParseInt(LastToken(c.logFile));
    if n.Some? then n.value else 0
  }

  function FileNumberDistance(c: FileCoordinates, other: FileCoordinates): int {
    Wrapped(FileNumber(other) - FileNumber(c))
  }

  predicate SmallerThan(c: FileCoordinates, other: FileCoordinates) {
    var distance := FileNumberDistance(c, other);
    if distance == 0 then c.logPos < other.logPos else distance > 0
  }

  predicate SmallerThanOrEquals(c: FileCoordinates, other: FileCoordinates) {
    SmallerThan(c, other) || (c.logFile == other.logFile && c.logPos == other.logPos)
  }

  // ----- the order within one series of files

  /** The name of file `n` of a series: the number has at least six digits. */
  function SeriesFile(prefix: string, n: nat): string {
    prefix + "." + Padded(Print(n))
  }

  function Padded(s: string): string
    decreases 6 - |s|
  {
    if |s| >= 6 then s else Padded("0" + s)
  }

  /** The digits with a sign or without stand for `i`. */
  predicate Stands(s: string, digits: string, i: int) {
    && Parse(digits).Some?
    && (|| (s == digits && i == Parse(digits).value)
        || (s == "+" + digits && i == Parse(digits).value)
        || (s == "-" + digits && i == -(Parse(digits).value as int)))
  }

  /** A numeral whose number fits. */
  ghost predicate IsNumeral(s: string, i: int) {
    IsInt(i) && exists digits: string :: Stands(s, digits, i)
  }

  lemma ParseIntExactlyWhen(s: string, i: int)
    ensures ParseInt(s) == Some(i) <==> IsNumeral(s, i)
  {
    if s != [] {
      var signed := s[0] == '-' || s[0] == '+';
      var digits := if signed then s[1..] else s;
      assert s == if s[0] == '-' then "-" + digits else if s[0] == '+' then "+" + digits else digits;
      forall d: string | Stands(s, d, i) ensures d == digits {
        if s == d && signed {
          ParseNeedsDigits(d, s[0]);
        }
        assert s != d ==> s[1..] == d;
      }
      assert ParseInt(s) == Some(i) ==> Stands(s, digits, i);
    }
  }

  lemma {:induction false} CutExactlyWhen(s: string, c: char)
    ensures Cut(s, c).None? <==> c !in s
    ensures Cut(s, c).Some? ==> c !in Cut(s, c).value.0 && s == Cut(s, c).value.0 + [c] + Cut(s, c).value.1
  {
    if s != [] && s[0] != c {
      CutExactlyWhen(s[1..], c);
      assert s == [s[0]] + s[1..];
    } else if s != [] {
      assert s == [] + [c] + s[1..];
    }
  }

  /** A string is read as coordinates exactly if it is a file name without a colon, a colon and a numeral. */
  lemma ParsesExactlyWhen(s: string, c: FileCoordinates)
    ensures ParseFileCoordinates(s) == Ok(c) <==>
            && c.eventSize == 0 && ':' !in c.logFile
            && exists pos: string :: s == c.logFile + ":" + pos && IsNumeral(pos, c.logPos)
  {
    CutExactlyWhen(s, ':');
    if ':' in s {
      var tokens := Cut(s, ':').value;
      ParseIntExactlyWhen(tokens.1, c.logPos);
      assert s == tokens.0 + ":" + tokens.1;
      forall pos: string | s == c.logFile + ":" + pos && ':' !in c.logFile ensures tokens == (c.logFile, pos) {
        CutAt(c.logFile, ':', pos);
        assert s == c.logFile + [':'] + pos;
      }
    }
  }

  lemma {:induction false} LeadingZero(s: string)
    requires s != []
    ensures Parse("0" + s) == Parse(s)
  {
    assert ("0" + s)[..|s|] == "0" + s[..|s| - 1];
    if |s| > 1 {
      LeadingZero(s[..|s| - 1]);
    } else {
      assert "0" + s[..0] == "0";
    }
  }

  lemma {:induction false} PaddedParses(s: string)
    requires s != [] && forall i | 0 <= i < |s| :: IsDigit(s[i])
    ensures Parse(Padded(s)) == Parse(s) && Padded(s) != [] && forall i | 0 <= i < |Padded(s)| :: IsDigit(Padded(s)[i])
    decreases 6 - |s|
  {
    if |s| < 6 {
      LeadingZero(s);
      PaddedParses("0" + s);
    }
  }

  lemma {:induction false} LastTokenOf(a: string, b: string)
    requires '.' !in b
    ensures LastToken(a + "." + b) == b
  {
    if b == [] {
      assert a + "." + b == a + ".";
    } else {
      var n := |b| - 1;
      assert (a + "." + b)[..|a| + 1 + n] == a + "." + b[..n];
      LastTokenOf(a, b[..n]);
      assert b == b[..n] + [b[n]];
    }
  }

  lemma SeriesNumber(prefix: string, n: nat, logPos: int, eventSize: int)
    requires n <= MAX_INT
    ensures FileNumber(FileCoordinates(SeriesFile(prefix, n), logPos, eventSize)) == n
  {
    var digits := Padded(Print(n));
    PaddedParses(Print(n));
    ParsePrint(n);
    LastTokenOf(prefix, digits);
    assert IsDigit(digits[0]);
  }

  /** Coordinates in file `n` of a series. */
  ghost predicate InSeries(c: FileCoordinates, prefix: string, n: nat) {
    n <= MAX_INT && c.logFile == SeriesFile(prefix, n)
  }

  /**
   Within one series of files the comparisons are the order by file number and
   then position. It is total, and it stays the same when both coordinates are
   printed and parsed back.
   */
  lemma SeriesOrder(a: FileCoordinates, m: nat, b: FileCoordinates, n: nat, prefix: string)
    requires InSeries(a, prefix, m) && InSeries(b, prefix, n)
    ensures SmallerThan(a, b) <==> m < n || (m == n && a.logPos < b.logPos)
    ensures SmallerThanOrEquals(a, b) <==> m < n || (m == n && a.logPos <= b.logPos)
  {
    SeriesNumber(prefix, m, a.logPos, a.eventSize);
    SeriesNumber(prefix, n, b.logPos, b.eventSize);
  }

  /** The size of the last event plays no part in the order. */
  lemma SizeDoesNotMatter(a: FileCoordinates, b: FileCoordinates)
    ensures var x, y := a.(eventSize := 0), b.(eventSize := 0);
            (SmallerThan(x, y) <==> SmallerThan(a, b)) && (SmallerThanOrEquals(x, y) <==> SmallerThanOrEquals(a, b))
  {
    assert FileNumber(a.(eventSize := 0)) == FileNumber(a) && FileNumber(b.(eventSize := 0)) == FileNumber(b);
  }

  lemma OrderSurvivesCheckpoint(a: FileCoordinates, b: FileCoordinates)
    requires IsInt(a.logPos) && IsInt(b.logPos) && ':' !in a.logFile && ':' !in b.logFile
    ensures var x, y := ParseFileCoordinates(DisplayString(a)), ParseFileCoordinates(DisplayString(b));
            && x.Ok? && y.Ok?
            && (SmallerThan(x.value, y.value) <==> SmallerThan(a, b))
            && (SmallerThanOrEquals(x.value, y.value) <==> SmallerThanOrEquals(a, b))
  {
    RoundTripExactlyWhen(a);
    RoundTripExactlyWhen(b);
    SizeDoesNotMatter(a, b);
  }

  /**
   In general two coordinates compare neither way exactly when different names carry
   the same number and the positions agree.
   */
  lemma IncomparableExactlyWhen(a: FileCoordinates, b: FileCoordinates)
    requires 0 <= FileNumber(a) && 0 <= FileNumber(b)
    ensures !SmallerThanOrEquals(a, b) && !SmallerThanOrEquals(b, a) <==>
            FileNumber(a) == FileNumber(b) && a.logPos == b.logPos && a.logFile != b.logFile
  {
    assert FileNumber(a) <= MAX_INT && FileNumber(b) <= MAX_INT;
  }

  // ----- sets of GTIDs

  datatype Gtid = Gtid(source: string, sequence: nat)

  /** `None` is the empty coordinates: no set at all. */
  type GtidCoordinates = Option<set<Gtid>>

  predicate GtidEquals(c: GtidCoordinates, other: GtidCoordinates) {
    c.Some? && other.Some? && c.value == other.value
  }

  predicate GtidSmallerThan(c: GtidCoordinates, other: GtidCoordinates) {
    c.Some? && other.Some? && !(other.value <= c.value)
  }

  predicate GtidSmallerThanOrEquals(c: GtidCoordinates, other: GtidCoordinates) {
    GtidEquals(c, other) || GtidSmallerThan(c, other)
  }

  /** The comparison is inclusion if and only if one set includes the other. */
  lemma GtidOrderExactlyWhen(a: set<Gtid>, b: set<Gtid>)
    ensures (GtidSmallerThanOrEquals(Some(a), Some(b)) <==> a <= b) <==> a <= b || b <= a
  {
    if a <= b && b <= a {
      assert a == b;
    }
  }

  /** Coordinates without a set compare with nothing. */
  lemma GtidNoneCompares(a: GtidCoordinates, b: GtidCoordinates)
    requires a.None? || b.None?
    ensures !GtidEquals(a, b) && !GtidSmallerThan(a, b) && !GtidSmallerThanOrEquals(a, b)
  {
  }

  /** On sets of different sources each counts as smaller than the other. */
  lemma GtidBothSmaller()
    ensures var a, b := {Gtid("a", 1)}, {Gtid("b", 1)};
            GtidSmallerThan(Some(a), Some(b)) && GtidSmallerThan(Some(b), Some(a))
  {
    var x, y := Gtid("a", 1), Gtid("b", 1);
    assert x.source[0] != y.source[0];
    assert x !in {y} && y !in {x};
  }

  predicate Growing(chain: seq<set<Gtid>>) {
    forall i, j | 0 <= i < j < |chain| :: chain[i] <= chain[j]
  }

  /** Along the sets a server goes through, the comparison is inclusion. */
  lemma GtidChainOrder(chain: seq<set<Gtid>>, i: nat, j: nat)
    requires Growing(chain) && i < |chain| && j < |chain|
    ensures GtidSmallerThanOrEquals(Some(chain[i]), Some(chain[j])) <==> chain[i] <= chain[j]
  {
    GtidOrderExactlyWhen(chain[i], chain[j]);
  }
}
