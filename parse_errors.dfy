/**
 * The file-parse error: a base message and an append-only log of
 * (row, column, message) entries, rendered one "[row:col]: message" line per
 * entry after the base message and before the stack trace.
 */
module ParseErrors {
  import opened Wrappers
  import opened Texts

  /** The line terminator AppendLine writes (the Unix one). */
  const NewLine: string := "\n"

  datatype Entry = Entry(row: int, col: int, message: string)

  // ----- Decimal rendering of integers -----

  function Digit(d: nat): char
    requires d < 10
  {
    ('0' as int + d) as char
  }

  /** The decimal digits of a natural number, most significant first, with no leading zero. */
  function Digits(n: nat): (s: string)
    ensures |s| > 0 && (|s| > 1 ==> s[0] != '0')
    ensures forall i :: 0 <= i < |s| ==> '0' <= s[i] <= '9'
    decreases n
  {
    if n < 10 then [Digit(n)] else Digits(n / 10) + [Digit(n % 10)]
  }

  /** Int32.ToString(): the digits, behind a '-' when negative. */
  function Decimal(n: int): string
  {
    if n < 0 then "-" + Digits(-n) else Digits(n)
  }

  function DigitValue(c: char): nat
    requires '0' <= c <= '9'
  {
    (c as int) - ('0' as int)
  }

  predicate AllDigits(s: string)
  {
    forall i :: 0 <= i < |s| ==> '0' <= s[i] <= '9'
  }

  /** Reading decimal digits back. */
  function ValueOf(s: string): nat
    requires AllDigits(s)
  {
    if |s| == 0 then 0 else ValueOf(s[..|s| - 1]) * 10 + DigitValue(s[|s| - 1])
  }

  /** Int32.Parse on the texts Decimal produces: an optional '-' and then digits. */
  function ParseDecimal(s: string): Option<int>
  {
    if |s| > 1 && s[0] == '-' && AllDigits(s[1..]) then Some(-(ValueOf(s[1..]) as int))
    else if |s| > 0 && AllDigits(s) then Some(ValueOf(s))
    else None
  }

  lemma {:induction false} ValueOfDigits(n: nat)
    ensures AllDigits(Digits(n)) && ValueOf(Digits(n)) == n
    decreases n
  {
    if n >= 10 {
      ValueOfDigits(n / 10);
      var s := Digits(n);
      assert s[..|s| - 1] == Digits(n / 10);
      assert DigitValue(s[|s| - 1]) == n % 10 by {
        assert s[|s| - 1] == Digit(n % 10);
      }
      assert n == (n / 10) * 10 + n % 10;
    }
  }

  /** The rendered row and column numbers read back as the numbers logged. */
  lemma DecimalRoundTrip(n: int)
    ensures ParseDecimal(Decimal(n)) == Some(n)
  {
    if n < 0 {
      var d := Digits(-n);
      ValueOfDigits(-n);
      assert ("-" + d)[1..] == d;
    } else {
      ValueOfDigits(n);
      assert Digits(n)[0] != '-';
    }
  }

  // ----- The report -----

  /** One report line: "[row:col]: message" and a line break. */
  function Line(e: Entry): string
  {
    "[" + Decimal(e.row) + ":" + Decimal(e.col) + "]: " + e.message + NewLine
  }

  /** The texts of a sequence under `f`, concatenated in order. */
  function ConcatMap<T>(xs: seq<T>, f: T -> string): string
  {
    if |xs| == 0 then "" else ConcatMap(xs[..|xs| - 1], f) + f(xs[|xs| - 1])
  }

  lemma {:induction false} ConcatMapAppend<T>(a: seq<T>, b: seq<T>, f: T -> string)
    ensures ConcatMap(a + b, f) == ConcatMap(a, f) + ConcatMap(b, f)
    decreases |b|
  {
    if |b| == 0 {
      assert a + b == a;
    } else {
      var init := b[..|b| - 1];
      assert (a + b)[..|a + b| - 1] == a + init;
      assert (a + b)[|a + b| - 1] == b[|b| - 1];
      ConcatMapAppend(a, init, f);
    }
  }

  /** The entry lines of a log, in order. */
  function Lines(entries: seq<Entry>): string
  {
    ConcatMap(entries, Line)
  }

  /** The report: the base message, the entry lines in order, then the stack trace on its own line. */
  function Report(message: string, entries: seq<Entry>, stackTrace: Option<string>): string
  {
    message + Lines(entries) + (if stackTrace.Some? then stackTrace.value else "") + NewLine
  }

  /** The lines of a log are the lines of its parts, in order. */
  lemma LinesAppend(a: seq<Entry>, b: seq<Entry>)
    ensures Lines(a + b) == Lines(a) + Lines(b)
  {
    ConcatMapAppend(a, b, Line);
  }

  /** A line holds exactly one line break when its message holds none. */
  lemma LineBreaks(e: Entry)
    requires '\n' !in e.message
    ensures Count(Line(e), '\n') == 1
  {
    var r := Decimal(e.row);
    var c := Decimal(e.col);
    assert '\n' !in r && '\n' !in c;
    var p := "[" + r + ":" + c + "]: ";
    assert '\n' !in p;
    assert Line(e) == p + e.message + "\n";
    CountAppend(p, e.message, '\n');
    CountAppend(p + e.message, "\n", '\n');
  }

  /** With single-line messages the report holds exactly one line per logged entry. */
  lemma {:induction false} OneLinePerEntry(entries: seq<Entry>)
    requires forall k :: 0 <= k < |entries| ==> '\n' !in entries[k].message
    ensures Count(Lines(entries), '\n') == |entries|
    decreases |entries|
  {
    if |entries| > 0 {
      var init := entries[..|entries| - 1];
      OneLinePerEntry(init);
      LineBreaks(entries[|entries| - 1]);
      CountAppend(Lines(init), Line(entries[|entries| - 1]), '\n');
    }
  }

  lemma LinesSnoc(entries: seq<Entry>, i: nat)
    requires i < |entries|
    ensures Lines(entries[..i + 1]) == Lines(entries[..i]) + Line(entries[i])
  {
    assert entries[..i + 1][..i] == entries[..i];
  }

  /** The exception object: its base message, its log and the stack trace it was thrown with, if any. */
  class FileParseException {
    const message: string
    var errors: seq<Entry>
    var stackTrace: Option<string>

    constructor(baseMsg: string)
      ensures message == baseMsg && errors == [] && stackTrace == None
      ensures !HasErrors()
    {
      message := baseMsg;
      errors := [];
      stackTrace := None;
    }

    /** HasErrors: at least one entry has been logged. */
    predicate HasErrors()
      reads this
    {
      |errors| != 0
    }

    /** AddParseException: appends one entry at the end of the log. */
    method AddParseException(row: int, col: int, msg: string)
      modifies this
      ensures errors == old(errors) + [Entry(row, col, msg)]
      ensures stackTrace == old(stackTrace)
      ensures HasErrors()
    {
      errors := errors + [Entry(row, col, msg)];
    }

    /** ToString: the base message, one line per entry in insertion order, the stack trace. */
    method ToString() returns (s: string)
      ensures s == Report(message, errors, stackTrace)
    {
      var log := errors;
      var lines := "";
      for i := 0 to |log|
        invariant lines == Lines(log[..i])
      {
        LinesSnoc(log, i);
        lines := lines + Line(log[i]);
      }
      assert log[..|log|] == log;
      s := message + lines;
      s := s + (if stackTrace.Some? then stackTrace.value else "") + NewLine;
    }
  }

  /**
   * Logging never rewrites what was reported: the report after an added
   * entry is the earlier report's message and lines, then the new line.
   */
  lemma ReportExtends(message: string, entries: seq<Entry>, e: Entry, stackTrace: Option<string>)
    ensures Report(message, entries + [e], stackTrace)
         == message + Lines(entries) + Line(e) + (if stackTrace.Some? then stackTrace.value else "") + NewLine
  {
    LinesAppend(entries, [e]);
    assert [e][..0] == [];
  }
}
