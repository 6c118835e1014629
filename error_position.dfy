/** Reading the line and column out of a compiler error row such as
    "(12, 5) : ERROR : Syntax error" when the user clicks it in the error
    list: the first character is dropped, commas and closing parentheses
    become spaces, and two decimal integers are scanned as `sscanf` with the
    format "%d %d" would. */
module ErrorPosition {
  import opened Wrappers

  datatype Position = Position(row: int, column: int)

  /** A converted integer and the input left after it. */
  datatype Scanned = Scanned(value: int, rest: string)

  /** `erase(0, 1)`: drops the first character, if any. The source drops a
      byte, which is the same thing for the ASCII "(" that opens a compiler row. */
  function EraseFirst(s: string): (r: string)
    ensures s == [] ==> r == []
    ensures s != [] ==> [s[0]] + r == s
  {
    if s == [] then s else s[1..]
  }

  function ReplaceChar(s: string, from: char, to: char): (r: string)
    ensures |r| == |s|
    ensures forall i :: 0 <= i < |s| ==> r[i] == if s[i] == from then to else s[i]
  {
    seq(|s|, i requires 0 <= i < |s| => if s[i] == from then to else s[i])
  }

  /** The characters C's `isspace` accepts in the "C" locale. */
  predicate IsSpace(c: char)
  {
    c == ' ' || c == '\t' || c == '\n' || c == '\U{B}' || c == '\U{C}' || c == '\r'
  }

  predicate IsDigit(c: char)
  {
    '0' <= c <= '9'
  }

  /** The number of white-space characters `s` starts with. */
  function SpaceCount(s: string): (n: nat)
    ensures n <= |s|
    ensures forall i :: 0 <= i < n ==> IsSpace(s[i])
    ensures n < |s| ==> !IsSpace(s[n])
  {
    if s != [] && IsSpace(s[0]) then 1 + SpaceCount(s[1..]) else 0
  }

  /** What is left after leading white space. */
  function SkipSpaces(s: string): string
  {
    s[SpaceCount(s)..]
  }

  /** The number of decimal digits `s` starts with. */
  function LeadingDigits(s: string): (n: nat)
    ensures n <= |s|
    ensures forall i :: 0 <= i < n ==> IsDigit(s[i])
    ensures n < |s| ==> !IsDigit(s[n])
  {
    if s != [] && IsDigit(s[0]) then 1 + LeadingDigits(s[1..]) else 0
  }

  function DigitValue(c: char): (v: nat)
    requires IsDigit(c)
    ensures v < 10
  {
    c as int - '0' as int
  }

  /** The value of a string of decimal digits, most significant first. */
  function Value(d: string): (v: nat)
    requires forall i :: 0 <= i < |d| ==> IsDigit(d[i])
  {
    if d == [] then 0 else 10 * Value(d[..|d| - 1]) + DigitValue(d[|d| - 1])
  }

  /** The digits of a `%d` conversion after its sign: their value and the
      rest of the input, or None when no digit comes first. */
  function ScanMagnitude(u: string): (r: Option<Scanned>)
    ensures r.Some? ==> r.value.value >= 0 && |r.value.rest| < |u| && r.value.rest == u[|u| - |r.value.rest|..]
  {
    var n := LeadingDigits(u);
    if n == 0 then None else Some(Scanned(Value(u[..n]), u[n..]))
  }

  /** Where the digits of a conversion start: after leading white space and
      an optional sign. */
  function SignedStart(s: string): (k: nat)
    ensures k <= |s|
  {
    var i := SpaceCount(s);
    if i < |s| && (s[i] == '-' || s[i] == '+') then i + 1 else i
  }

  predicate Negative(s: string)
  {
    var i := SpaceCount(s);
    i < |s| && s[i] == '-'
  }

  /** One `%d` conversion: white space, an optional sign, then at least one
      digit. The value and the rest of the input, or None on a matching
      failure. */
  function ScanInt(s: string): (r: Option<Scanned>)
    ensures r.Some? ==> |r.value.rest| < |s|
    ensures r.Some? <==> ScanMagnitude(s[SignedStart(s)..]).Some?
  {
    match ScanMagnitude(s[SignedStart(s)..])
    case None => None
    case Some(Scanned(magnitude, rest)) => Some(Scanned(if Negative(s) then -magnitude else magnitude, rest))
  }

  /** What a conversion leaves is the end of its input. */
  lemma ScanIntLeavesSuffix(s: string)
    requires ScanInt(s).Some?
    ensures ScanInt(s).value.rest == s[|s| - |ScanInt(s).value.rest|..]
  {
    var k := SignedStart(s);
    SuffixOfDrop(s, k, ScanMagnitude(s[k..]).value.rest);
  }

  lemma SuffixOfDrop(s: string, k: nat, t: string)
    requires k <= |s| && |t| <= |s| - k && t == s[k..][|s| - k - |t|..]
    ensures t == s[|s| - |t|..]
  {
    forall j | 0 <= j < |t|
      ensures t[j] == s[|s| - |t| + j]
    {
      assert t[j] == s[k..][|s| - k - |t| + j];
    }
  }


  function Normalised(cell: string): string
  {
    Clean(EraseFirst(cell))
  }

  /** The two conversions of "%d %d" on an already normalised row. Both
      values start at 0 and keep it when their conversion fails; the
      literal space of the format skips white space before the second
      number. */
  function ScanPosition(line: string): (p: Position)
    ensures ScanInt(line).None? ==> p == Position(0, 0)
    ensures ScanInt(line).Some? ==> p.row == ScanInt(line).value.value
    ensures ScanInt(line).Some? && ScanInt(SkipSpaces(ScanInt(line).value.rest)).None? ==> p.column == 0
    ensures ScanInt(line).Some? && ScanInt(SkipSpaces(ScanInt(line).value.rest)).Some? ==>
            p.column == ScanInt(SkipSpaces(ScanInt(line).value.rest)).value.value
  {
    match ScanInt(line)
    case None => Position(0, 0)
    case Some(Scanned(row, rest)) =>
      match ScanInt(SkipSpaces(rest))
      case None => Position(row, 0)
      case Some(Scanned(column, _)) => Position(row, column)
  }

  /** The position a clicked error row names. */
  function ParseErrorPosition(cell: string): (p: Position)
    ensures ScanInt(Normalised(cell)).None? ==> p == Position(0, 0)
    ensures ScanInt(Normalised(cell)).Some? ==> p.row == ScanInt(Normalised(cell)).value.value
  {
    ScanPosition(Normalised(cell))
  }

  /** The decimal rendering of a natural number, as the compiler prints it. */
  function NatToString(n: nat): (s: string)
    ensures s != [] && forall i :: 0 <= i < |s| ==> IsDigit(s[i])
  {
    if n < 10 then [('0' as int + n) as char]
    else NatToString(n / 10) + [('0' as int + n % 10) as char]
  }

  lemma {:induction false} ValueOfNatToString(n: nat)
    ensures Value(NatToString(n)) == n
  {
    var s := NatToString(n);
    if n >= 10 {
      ValueOfNatToString(n / 10);
      assert s[..|s| - 1] == NatToString(n / 10);
    }
  }

  lemma {:induction false} DigitsOfSuffix(d: string, rest: string)
    requires forall i :: 0 <= i < |d| ==> IsDigit(d[i])
    requires rest == [] || !IsDigit(rest[0])
    ensures LeadingDigits(d + rest) == |d|
  {
    if d != [] {
      assert (d + rest)[1..] == d[1..] + rest;
      DigitsOfSuffix(d[1..], rest);
    } else {
      assert d + rest == rest;
    }
  }

  lemma MagnitudeOfNatToString(n: nat, rest: string)
    requires rest == [] || !IsDigit(rest[0])
    ensures ScanMagnitude(NatToString(n) + rest) == Some(Scanned(n, rest))
  {
    var d := NatToString(n);
    var u := d + rest;
    DigitsOfSuffix(d, rest);
    assert u[..|d|] == d && u[|d|..] == rest;
    ValueOfNatToString(n);
  }

  /** `%d` reads back what `NatToString` writes and stops at the first
      character that is not a digit. */
  lemma ScanNatToString(n: nat, rest: string)
    requires rest == [] || !IsDigit(rest[0])
    ensures ScanInt(NatToString(n) + rest) == Some(Scanned(n, rest))
  {
    var s := NatToString(n) + rest;
    MagnitudeOfNatToString(n, rest);
    assert SpaceCount(s) == 0 && s[0] != '-' && s[0] != '+';
    assert s[0..] == s;
  }

  /** A minus sign in front of digits negates their value and leaves the
      same rest. */
  lemma ScanMinus(u: string)
    requires ScanMagnitude(u).Some?
    ensures ScanInt(['-'] + u) == Some(Scanned(-ScanMagnitude(u).value.value, ScanMagnitude(u).value.rest))
  {
    var s := ['-'] + u;
    assert SpaceCount(s) == 0;
    assert s[1..] == u;
  }

  lemma ReplaceAbsent(s: string, from: char, to: char)
    requires forall i :: 0 <= i < |s| ==> s[i] != from
    ensures ReplaceChar(s, from, to) == s
  {
  }

  lemma ReplaceAppend(a: string, b: string, from: char, to: char)
    ensures ReplaceChar(a + b, from, to) == ReplaceChar(a, from, to) + ReplaceChar(b, from, to)
  {
    var l, r := ReplaceChar(a + b, from, to), ReplaceChar(a, from, to) + ReplaceChar(b, from, to);
    forall i | 0 <= i < |l|
      ensures l[i] == r[i]
    {
      if i < |a| {
        assert (a + b)[i] == a[i];
      } else {
        assert (a + b)[i] == b[i - |a|];
      }
    }
  }

  /** Both replacements the row goes through. */
  function Clean(s: string): string
  {
    ReplaceChar(ReplaceChar(s, ',', ' '), ')', ' ')
  }

  lemma CleanAppend(a: string, b: string)
    ensures Clean(a + b) == Clean(a) + Clean(b)
  {
    ReplaceAppend(a, b, ',', ' ');
    ReplaceAppend(ReplaceChar(a, ',', ' '), ReplaceChar(b, ',', ' '), ')', ' ');
  }

  lemma CleanDigits(d: string)
    requires forall i :: 0 <= i < |d| ==> IsDigit(d[i])
    ensures Clean(d) == d
  {
    ReplaceAbsent(d, ',', ' ');
    ReplaceAbsent(d, ')', ' ');
  }

  lemma NormalisedRow(r: string, c: string, message: string)
    requires forall i :: 0 <= i < |r| ==> IsDigit(r[i])
    requires forall i :: 0 <= i < |c| ==> IsDigit(c[i])
    ensures Normalised("(" + r + ", " + c + ")" + message) == r + ("  " + (c + (" " + Clean(message))))
  {
    var cell := "(" + r + ", " + c + ")" + message;
    assert EraseFirst(cell) == r + (", " + (c + (")" + message)));
    CleanAppend(r, ", " + (c + (")" + message)));
    CleanAppend(", ", c + (")" + message));
    CleanAppend(c, ")" + message);
    CleanAppend(")", message);
    CleanDigits(r);
    CleanDigits(c);
    assert Clean(", ") == "  ";
    assert Clean(")") == " ";
  }

  lemma SkipSeparator(x: string)
    requires x == [] || !IsSpace(x[0])
    ensures SkipSpaces("  " + x) == x
  {
    var s := "  " + x;
    assert s[1..] == " " + x;
    assert s[1..][1..] == x;
    assert SpaceCount(s) == 2;
  }

  /** A row in the compiler's "(line, column)" form gives back its line and
      column, whatever message follows. */
  lemma ParseRoundTrip(row: nat, column: nat, message: string)
    ensures ParseErrorPosition("(" + NatToString(row) + ", " + NatToString(column) + ")" + message) ==
            Position(row, column)
  {
    var r, c, m := NatToString(row), NatToString(column), Clean(message);
    var afterColumn := " " + m;
    var afterRow := "  " + (c + afterColumn);
    assert afterRow[0] == ' ' && afterColumn[0] == ' ';
    var line := r + afterRow;
    NormalisedRow(r, c, message);
    assert Normalised("(" + r + ", " + c + ")" + message) == line;
    ScanNatToString(row, afterRow);
    SkipSeparator(c + afterColumn);
    ScanNatToString(column, afterColumn);
    assert ScanInt(SkipSpaces(afterRow)) == Some(Scanned(column, afterColumn));
    assert ScanPosition(line) == Position(row, column);
  }

  predicate NoDigit(s: string)
  {
    forall i :: 0 <= i < |s| ==> !IsDigit(s[i])
  }

  lemma NoDigitNoMagnitude(u: string)
    requires NoDigit(u)
    ensures ScanMagnitude(u) == None
  {
    if u != [] {
      assert !IsDigit(u[0]);
    }
  }

  /** Without a digit there is nothing for `%d` to convert. */
  lemma NoDigitNoScan(s: string)
    requires NoDigit(s)
    ensures ScanInt(s) == None
  {
    var i := SpaceCount(s);
    if i < |s| {
      NoDigitNoMagnitude(s[i + 1..]);
    }
    NoDigitNoMagnitude(s[i..]);
  }

  /** A row naming only a line, "(line)" followed by a message without
      digits, keeps the column at 0. */
  lemma RowOnlyPosition(row: nat, message: string)
    requires NoDigit(message)
    ensures ParseErrorPosition("(" + NatToString(row) + ")" + message) == Position(row, 0)
  {
    var r := NatToString(row);
    var after := " " + Clean(message);
    NormalisedRowOnly(r, message);
    assert after[0] == ' ';
    ScanNatToString(row, after);
    assert ScanInt(Normalised("(" + r + ")" + message)) == Some(Scanned(row, after));
    CleanNoDigit(message);
    SkipNoDigit(after);
    NoDigitNoScan(SkipSpaces(after));
  }

  lemma NormalisedRowOnly(r: string, message: string)
    requires forall i :: 0 <= i < |r| ==> IsDigit(r[i])
    ensures Normalised("(" + r + ")" + message) == r + (" " + Clean(message))
  {
    var cell := "(" + r + ")" + message;
    assert EraseFirst(cell) == r + (")" + message);
    CleanAppend(r, ")" + message);
    CleanAppend(")", message);
    CleanDigits(r);
    assert Clean(")") == " ";
  }

  /** The replacements bring in no digit. */
  lemma CleanNoDigit(s: string)
    requires NoDigit(s)
    ensures NoDigit(Clean(s))
  {
    assert NoDigit(ReplaceChar(s, ',', ' '));
  }

  /** A space followed by text without digits stays without digits once the
      leading white space is skipped. */
  lemma SkipNoDigit(x: string)
    requires |x| > 0 && x[0] == ' ' && NoDigit(x[1..])
    ensures NoDigit(SkipSpaces(x))
  {
    var left := SkipSpaces(x);
    forall k | 0 <= k < |left|
      ensures !IsDigit(left[k])
    {
      var j := SpaceCount(x) + k;
      assert left[k] == x[j];
      if j > 0 {
        assert x[j] == x[1..][j - 1];
      }
    }
  }

  /** A row without any digit leaves the cursor target at the start. */
  lemma NoDigitsNoPosition(cell: string)
    requires NoDigit(cell)
    ensures ParseErrorPosition(cell) == Position(0, 0)
  {
    var e := EraseFirst(cell);
    assert NoDigit(e) by {
      if cell != [] {
        assert forall k :: 0 <= k < |e| ==> e[k] == cell[k + 1];
      }
    }
    var once := ReplaceChar(e, ',', ' ');
    assert NoDigit(once);
    assert NoDigit(Clean(e));
    NoDigitNoScan(Normalised(cell));
  }

  /** The script text editor's cursor, moved when an error row is clicked. */
  class ScriptTextEditor {
    var cursor: Position
    var focused: bool

    constructor ()
      ensures cursor == Position(0, 0) && !focused
    {
      cursor := Position(0, 0);
      focused := false;
    }

    /** `selected` is the first column of the selected error row, if any.
        The row's text is edited in place before it is scanned. */
    method OnErrorList(selected: Option<string>)
      modifies this
      ensures selected.None? ==> cursor == old(cursor) && focused == old(focused)
      ensures selected.Some? ==> cursor == ParseErrorPosition(selected.value) && focused
    {
      if selected.Some? {
        var line := selected.value;
        line := EraseFirst(line);
        line := ReplaceChar(line, ',', ' ');
        line := ReplaceChar(line, ')', ' ');
        assert line == Normalised(selected.value);
        cursor := ScanPosition(line);
        focused := true;
      }
    }
  }
}
