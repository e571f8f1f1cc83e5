/**
 Columns, column lists, and the conversion of logged values.
 */
module Columns {
  import opened Wrappers
  import Decimal

  // ----- values

  /** A value as the binlog or a bound argument holds it. Strings are strings of bytes. */
  datatype Datum =
    | Null
    | Int8(i: int) | Int16(i: int) | Int32(i: int) | Int64(i: int) | Int(i: int)
    | Uint8(u: nat) | Uint16(u: nat) | Uint32(u: nat) | Uint(u: nat)
    | Text(bytes: string) | Blob(bytes: string)

  datatype Kind = Plain | MediumInt | Binary

  datatype Column = Column(name: string, unsigned: bool, isVirtual: bool, charset: string, converted: bool,
                           mysqlType: string, kind: Kind, octets: nat)

  const MAX_MEDIUMINT_UNSIGNED := 16777215

  predicate Contains(s: string, t: string) {
    |t| <= |s| && (s[..|t|] == t || (s != [] && Contains(s[1..], t)))
  }

  predicate HasSuffix(s: string, t: string) {
    |t| <= |s| && s[|s| - |t|..] == t
  }

  lemma {:induction false} Split(s: string, t: string) returns (p: string, q: string)
    requires Contains(s, t)
    ensures p + t + q == s
  {
    if s[..|t|] == t {
      p, q := [], s[|t|..];
    } else {
      p, q := Split(s[1..], t);
      assert ([s[0]] + p) + t + q == [s[0]] + (p + t + q);
      p := [s[0]] + p;
    }
  }

  lemma {:induction false} Joined(p: string, t: string, q: string)
    ensures Contains(p + t + q, t)
  {
    var s := p + t + q;
    if p == [] {
      assert s[..|t|] == t;
    } else {
      Joined(p[1..], t, q);
      assert s[1..] == p[1..] + t + q;
    }
  }

  /** `t` stands somewhere in `s`. */
  lemma ContainsExactlyWhen(s: string, t: string)
    ensures Contains(s, t) <==> exists p: string, q: string :: p + t + q == s
  {
    if Contains(s, t) {
      var p, q := Split(s, t);
    }
    forall p: string, q: string | p + t + q == s ensures Contains(s, t) {
      Joined(p, t, q);
    }
  }

  function Zeros(n: nat): (s: string)
    ensures |s| == n && forall i | 0 <= i < n :: s[i] == '\0'
  {
    seq(n, i => '\0')
  }

  /** The bytes go to the server as they are, not as text of some charset. */
  predicate SentAsBytes(c: Column) {
    if c.charset != "" then !c.converted else Contains(c.mysqlType, "binary") || HasSuffix(c.mysqlType, "blob")
  }

  function ConvertedBytes(c: Column, arg: Datum): Datum
    requires arg.Text? || arg.Blob?
  {
    if c.kind.Binary? && |arg.bytes| < c.octets then Blob(arg.bytes + Zeros(c.octets - |arg.bytes|))
    else if SentAsBytes(c) then Blob(arg.bytes)
    else arg
  }

  function ConvertedUnsigned(c: Column, arg: Datum): Datum {
    match arg
    case Int8(i) => Uint8(i % 0x100)
    case Int16(i) => Uint16(i % 0x1_0000)
    case Int32(i) =>
      if !c.kind.MediumInt? then Uint32(i % 0x1_0000_0000)
      else if i >= 0 then arg
      else Uint32((MAX_MEDIUMINT_UNSIGNED + i + 1) % 0x1_0000_0000)
    case Int64(i) => Text(Decimal.Print(i % 0x1_0000_0000_0000_0000))
    case Int(i) => Uint(i % 0x1_0000_0000_0000_0000)
    case _ => arg
  }

  function Converted(c: Column, arg: Datum): Datum {
    if arg.Text? || arg.Blob? then ConvertedBytes(c, arg)
    else if c.unsigned then ConvertedUnsigned(c, arg)
    else arg
  }

  /** The column holds bytes by its type: `t` is the name of a binary or a blob type. */
  ghost predicate IsByteType(t: string) {
    (exists p: string, q: string :: p + "binary" + q == t) || (exists p: string :: p + "blob" == t)
  }

  /**
   Strings keep their bytes, up to padding. They go to the server as bytes, not as text of
   the connection's charset, exactly if they were bytes, are padded, have a charset that is
   not converted, or have none and are of a byte type.
   */
  lemma SentAsBytesExactlyWhen(c: Column, arg: Datum)
    requires arg.Text? || arg.Blob?
    ensures var r, padded := Converted(c, arg), c.kind.Binary? && |arg.bytes| < c.octets;
            && (r.Text? || r.Blob?)
            && r.bytes == arg.bytes + Zeros(if padded then c.octets - |arg.bytes| else 0)
            && (r.Blob? <==> arg.Blob? || padded || (c.charset != "" && !c.converted) ||
                             (c.charset == "" && IsByteType(c.mysqlType)))
  {
    var t := c.mysqlType;
    ContainsExactlyWhen(t, "binary");
    assert arg.bytes + Zeros(0) == arg.bytes;
    if HasSuffix(t, "blob") {
      assert t[..|t| - 4] + "blob" == t;
    }
  }

  method ConvertArg(c: Column, arg: Datum) returns (r: Datum)
    ensures r == Converted(c, arg)
  {
    r := arg;
    if arg.Text? || arg.Blob? {
      if c.charset != "" && !c.converted {
        r := Blob(arg.bytes);
      } else if c.charset == "" && (Contains(c.mysqlType, "binary") || HasSuffix(c.mysqlType, "blob")) {
        r := Blob(arg.bytes);
      }
      if c.kind.Binary? {
        var size := |arg.bytes|;
        if size < c.octets {
          var buf := arg.bytes;
          for i := 0 to c.octets - size
            invariant buf == arg.bytes + Zeros(i)
          {
            buf := buf + ['\0'];
          }
          r := Blob(buf);
        }
      }
      return;
    }
    if c.unsigned {
      r := ConvertedUnsigned(c, arg);
    }
  }

  // ----- what a column really holds, and what the binlog says of it

  datatype Stored = Nothing | Num(n: int) | Chars(bytes: string)

  datatype Domain = Unsigned(bits: nat) | Signed(bits: nat) | FixedBinary(octets: nat) | Bytes

  function Pow2(bits: nat): nat {
    if bits == 8 then 0x100
    else if bits == 16 then 0x1_0000
    else if bits == 24 then 0x100_0000
    else if bits == 32 then 0x1_0000_0000
    else 0x1_0000_0000_0000_0000
  }

  predicate IsWidth(bits: nat) {
    bits == 8 || bits == 16 || bits == 24 || bits == 32 || bits == 64
  }

  /** The column can hold `v`. */
  predicate Holds(d: Domain, v: Stored) {
    match v
    case Nothing => true
    case Num(n) =>
      if d.Unsigned? then IsWidth(d.bits) && 0 <= n < Pow2(d.bits)
      else d.Signed? && IsWidth(d.bits) && -(Pow2(d.bits) / 2) <= n < Pow2(d.bits) / 2
    case Chars(b) => d.Bytes? || (d.FixedBinary? && |b| == d.octets)
  }

  /** The column's description fits what it holds. */
  predicate Describes(c: Column, d: Domain) {
    && c.unsigned == d.Unsigned?
    && (c.kind.MediumInt? <==> (d.Unsigned? || d.Signed?) && d.bits == 24)
    && (c.kind.Binary? <==> d.FixedBinary?)
    && (d.FixedBinary? ==> c.octets == d.octets)
  }

  /** Two's complement: the logged integer does not say that the column is unsigned. */
  function SignExtended(n: nat, bits: nat): int {
    if n < Pow2(bits) / 2 then n else n - Pow2(bits)
  }

  function Integer(i: int, bits: nat): Datum {
    if bits == 8 then Int8(i) else if bits == 16 then Int16(i) else if bits == 64 then Int64(i) else Int32(i)
  }

  /** Trailing zero bytes of a fixed-length binary value are not logged. */
  function Clipped(b: string): string {
    if b != [] && b[|b| - 1] == '\0' then Clipped(b[..|b| - 1]) else b
  }

  function Logged(d: Domain, v: Stored): Datum
    requires Holds(d, v)
  {
    match v
    case Nothing => Null
    case Num(n) => Integer(if d.Unsigned? then SignExtended(n, d.bits) else n, d.bits)
    case Chars(b) => Text(if d.FixedBinary? then Clipped(b) else b)
  }

  /** The value the server takes a bound argument to be, for a column that holds `d`. */
  function Taken(d: Domain, arg: Datum): Option<Stored> {
    match arg
    case Null => Some(Nothing)
    case Text(b) =>
      if d.Bytes? || d.FixedBinary? then Some(Chars(b))
      else var n := Decimal.Parse(b); if n.Some? then Some(Num(n.value)) else None
    case Blob(b) => if d.Bytes? || d.FixedBinary? then Some(Chars(b)) else None
    case Uint8(u) => Some(Num(u))
    case Uint16(u) => Some(Num(u))
    case Uint32(u) => Some(Num(u))
    case Uint(u) => Some(Num(u))
    case Int8(i) => Some(Num(i))
    case Int16(i) => Some(Num(i))
    case Int32(i) => Some(Num(i))
    case Int64(i) => Some(Num(i))
    case Int(i) => Some(Num(i))
  }

  lemma {:induction false} ClippedPadded(b: string)
    ensures |Clipped(b)| <= |b| && Clipped(b) + Zeros(|b| - |Clipped(b)|) == b
  {
    if b != [] && b[|b| - 1] == '\0' {
      ClippedPadded(b[..|b| - 1]);
      assert b == b[..|b| - 1] + ['\0'];
      var n := |b| - 1 - |Clipped(b)|;
      assert Zeros(n + 1) == Zeros(n) + ['\0'];
    } else {
      assert Zeros(0) == [];
    }
  }

  /** The number of an integer argument, or that a string of digits stands for. */
  function NumberOf(arg: Datum): Option<int> {
    match arg
    case Null => None
    case Text(b) => var n := Decimal.Parse(b); if n.Some? then Some(n.value) else None
    case Blob(_) => None
    case Uint8(u) => Some(u)
    case Uint16(u) => Some(u)
    case Uint32(u) => Some(u)
    case Uint(u) => Some(u)
    case _ => Some(arg.i)
  }

  /** How many bits a signed integer argument has; a medium integer comes as one of 32 bits. */
  function WidthOf(arg: Datum): nat {
    if arg.Int8? then 8 else if arg.Int16? then 16 else if arg.Int32? then 32 else 64
  }

  predicate IsSigned(arg: Datum) {
    arg.Int8? || arg.Int16? || arg.Int32? || arg.Int64? || arg.Int?
  }

  /** The number without sign that has the bits of `i`. */
  function WithoutSign(i: int, bits: nat): int {
    if i < 0 then i + Pow2(bits) else i
  }

  predicate Fits(i: int, bits: nat) {
    -(Pow2(bits) / 2) <= i < Pow2(bits) / 2
  }

  lemma UnsignedMedium(c: Column, i: int)
    requires c.kind.MediumInt? && Fits(i, 24)
    ensures NumberOf(ConvertedUnsigned(c, Int32(i))) == Some(WithoutSign(i, 24))
  {
  }

  lemma WrapsLong(i: int)
    requires Fits(i, 64)
    ensures i % 0x1_0000_0000_0000_0000 == WithoutSign(i, 64)
  {
  }

  lemma UnsignedLong(c: Column, i: int)
    requires Fits(i, 64)
    ensures NumberOf(ConvertedUnsigned(c, Int64(i))) == Some(WithoutSign(i, 64))
    ensures NumberOf(ConvertedUnsigned(c, Int(i))) == Some(WithoutSign(i, 64))
  {
    WrapsLong(i);
    var n: nat := WithoutSign(i, 64);
    Decimal.ParsePrint(n);
    assert ConvertedUnsigned(c, Int64(i)) == Text(Decimal.Print(n)) && ConvertedUnsigned(c, Int(i)) == Uint(n);
  }

  lemma UnsignedShort(c: Column, arg: Datum)
    requires (arg.Int8? || arg.Int16? || (arg.Int32? && !c.kind.MediumInt?)) && Fits(arg.i, WidthOf(arg))
    ensures NumberOf(ConvertedUnsigned(c, arg)) == Some(WithoutSign(arg.i, WidthOf(arg)))
  {
  }

  /**
   Of an unsigned column a signed integer comes out as the number of the same bits without
   sign; nothing but signed integers of unsigned columns, and strings, is changed.
   */
  lemma UnsignedExactly(c: Column, arg: Datum)
    requires !arg.Text? && !arg.Blob?
    ensures !(c.unsigned && IsSigned(arg)) ==> Converted(c, arg) == arg
    ensures var bits := if c.kind.MediumInt? && arg.Int32? then 24 else WidthOf(arg);
            c.unsigned && IsSigned(arg) && Fits(arg.i, bits) ==>
              NumberOf(Converted(c, arg)) == Some(WithoutSign(arg.i, bits))
  {
    var bits := if c.kind.MediumInt? && arg.Int32? then 24 else WidthOf(arg);
    if c.unsigned && IsSigned(arg) && Fits(arg.i, bits) {
      if bits == 24 {
        UnsignedMedium(c, arg.i);
      } else if bits == 64 {
        UnsignedLong(c, arg.i);
      } else {
        UnsignedShort(c, arg);
      }
    }
  }

  lemma SignIsBits(n: nat, bits: nat)
    requires IsWidth(bits) && n < Pow2(bits)
    ensures Fits(SignExtended(n, bits), bits) && WithoutSign(SignExtended(n, bits), bits) == n
  {
  }

  /** An integer, or a string of digits, is taken for its number. */
  lemma NumberIsTaken(d: Domain, arg: Datum)
    requires d.Unsigned? && NumberOf(arg).Some?
    ensures Taken(d, arg) == Some(Num(NumberOf(arg).value))
  {
  }

  lemma UnsignedRestored(c: Column, d: Domain, n: nat)
    requires Describes(c, d) && d.Unsigned? && Holds(d, Num(n))
    ensures Taken(d, Converted(c, Logged(d, Num(n)))) == Some(Num(n))
  {
    SignIsBits(n, d.bits);
    var arg := Integer(SignExtended(n, d.bits), d.bits);
    UnsignedExactly(c, arg);
    NumberIsTaken(d, Converted(c, arg));
  }

  /**
   The conversion undoes what logging does to a value: the true unsigned value
   comes back at 8, 16, 24, 32 and 64 bits, and so do the zeros stripped from a
   fixed-length binary. Every other value passes through.
   */
  lemma ConversionRestores(c: Column, d: Domain, v: Stored)
    requires Describes(c, d) && Holds(d, v)
    ensures Taken(d, Converted(c, Logged(d, v))) == Some(v)
  {
    if v.Num? && d.Unsigned? {
      UnsignedRestored(c, d, v.n);
    } else if v.Chars? && d.FixedBinary? {
      ClippedPadded(v.bytes);
      assert Clipped(v.bytes) + Zeros(0) == Clipped(v.bytes);
    }
  }

  /** Values that differ are logged differently. */
  lemma LoggedIsInjective(c: Column, d: Domain, v: Stored, w: Stored)
    requires Describes(c, d) && Holds(d, v) && Holds(d, w) && Logged(d, v) == Logged(d, w)
    ensures v == w
  {
    ConversionRestores(c, d, v);
    ConversionRestores(c, d, w);
  }

  // ----- column lists

  datatype ColumnList = ColumnList(columns: seq<Column>, ordinals: map<string, nat>)

  function Names(columns: seq<Column>): (names: seq<string>)
    ensures |names| == |columns| && forall i | 0 <= i < |columns| :: names[i] == columns[i].name
  {
    seq(|columns|, i requires 0 <= i < |columns| => columns[i].name)
  }

  /** `ordinals` gives each name its last place in the list. */
  ghost predicate Indexes(columns: seq<Column>, ordinals: map<string, nat>) {
    && (forall name | name in ordinals :: ordinals[name] < |columns| && columns[ordinals[name]].name == name)
    && (forall i | 0 <= i < |columns| :: columns[i].name in ordinals && i <= ordinals[columns[i].name])
  }

  method NewColumnsMap(columns: seq<Column>) returns (ordinals: map<string, nat>)
    ensures Indexes(columns, ordinals)
  {
    ordinals := map[];
    for i := 0 to |columns|
      invariant forall name | name in ordinals :: ordinals[name] < i && columns[ordinals[name]].name == name
      invariant forall j | 0 <= j < i :: columns[j].name in ordinals && j <= ordinals[columns[j].name]
    {
      ordinals := ordinals[columns[i].name := i];
    }
  }

  /** Whether every name of the list has an ordinal in the other one. */
  method IsSubsetOf(list: ColumnList, other: ColumnList) returns (r: bool)
    ensures r <==> forall i | 0 <= i < |list.columns| :: list.columns[i].name in other.ordinals
    ensures Indexes(other.columns, other.ordinals) ==>
              (r <==> forall i | 0 <= i < |list.columns| :: list.columns[i].name in Names(other.columns))
  {
    for i := 0 to |list.columns|
      invariant forall j | 0 <= j < i :: list.columns[j].name in other.ordinals
    {
      if list.columns[i].name !in other.ordinals {
        return false;
      }
    }
    return true;
  }

  function Filtered(columns: seq<Column>, f: Column -> bool): seq<Column> {
    if columns == [] then []
    else
      var last := columns[|columns| - 1];
      Filtered(columns[..|columns| - 1], f) + if f(last) then [last] else []
  }

  /** Keeps the columns that pass, but the ordinals of the whole list. */
  method FilterBy(list: ColumnList, f: Column -> bool) returns (r: ColumnList)
    ensures r == ColumnList(Filtered(list.columns, f), list.ordinals)
  {
    var filtered := [];
    for i := 0 to |list.columns|
      invariant filtered == Filtered(list.columns[..i], f)
    {
      assert list.columns[..i + 1][..i] == list.columns[..i];
      if f(list.columns[i]) {
        filtered := filtered + [list.columns[i]];
      }
    }
    assert list.columns[..|list.columns|] == list.columns;
    return ColumnList(filtered, list.ordinals);
  }

  lemma {:induction false} FilteredIn(columns: seq<Column>, f: Column -> bool, c: Column)
    ensures c in Filtered(columns, f) <==> c in columns && f(c)
  {
    if columns != [] {
      FilteredIn(columns[..|columns| - 1], f, c);
      assert columns == columns[..|columns| - 1] + [columns[|columns| - 1]];
    }
  }
}
