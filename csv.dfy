/** The line splitter of the CSV reader (csv/CsvReader.kt, `parseLine`).

    A line is cut at every separator character seen while the number of
    quote characters seen so far is even.  Quote characters stay in the field
    text, carriage returns and line feeds are dropped, and the field under
    construction is always emitted at the end, so the result is never empty.
 */
module Csv {

  /** The state of the scanning loop: the fields already closed, the field
      being built, and the number of quote characters seen so far. */
  datatype Scan = Scan(fields: seq<string>, current: string, quotes: nat)

  const Start := Scan([], "", 0)

  /** One iteration of the loop: the four branches of the `when`, in order. */
  function Step(st: Scan, ch: char, separator: char): Scan {
    if ch == '"' then
      st.(current := st.current + [ch], quotes := st.quotes + 1)
    else if ch == '\n' || ch == '\r' then
      st
    else if ch == separator && st.quotes % 2 == 0 then
      Scan(st.fields + [st.current], "", st.quotes)
    else
      st.(current := st.current + [ch])
  }

  /** The loop state after scanning all of `line`. */
  function ScanLine(line: string, separator: char): Scan
    decreases |line|
  {
    if line == [] then Start
    else Step(ScanLine(line[..|line| - 1], separator), line[|line| - 1], separator)
  }

  /** The fields `parseLine` returns: the closed fields and the last one. */
  function Fields(line: string, separator: char): seq<string> {
    var st := ScanLine(line, separator);
    st.fields + [st.current]
  }

  /** The loop of `parseLine`, over a result list, a string builder and a
      quote counter.  (The source's counter is a 32-bit Int; its parity, the
      only thing the loop inspects, survives wrap-around because 2^32 is even.) */
  method ParseLine(line: string, separator: char) returns (result: seq<string>)
    ensures result == Fields(line, separator)
    ensures |result| >= 1
    ensures line == "" ==> result == [""]
  {
    result := [];
    var builder: string := "";
    var quotes: nat := 0;
    for i := 0 to |line|
      invariant ScanLine(line[..i], separator) == Scan(result, builder, quotes)
    {
      var ch := line[i];
      assert line[..i + 1][..i] == line[..i];
      if ch == '"' {
        quotes := quotes + 1;
        builder := builder + [ch];
      } else if ch == '\n' || ch == '\r' {
      } else if ch == separator && quotes % 2 == 0 {
        result := result + [builder];
        builder := "";
      } else {
        builder := builder + [ch];
      }
    }
    assert line[..|line|] == line;
    result := result + [builder];
  }

  // ---------------------------------------------------------------------
  // Reference definitions the fields are measured against

  /** The line with every carriage return and line feed removed. */
  function Strip(s: string): string
    decreases |s|
  {
    if s == [] then []
    else
      var last := s[|s| - 1];
      Strip(s[..|s| - 1]) + (if last == '\n' || last == '\r' then [] else [last])
  }

  /** The fields written back out, separated by `separator`. */
  function Join(fields: seq<string>, separator: char): string
    decreases |fields|
  {
    if fields == [] then ""
    else if |fields| == 1 then fields[0]
    else Join(fields[..|fields| - 1], separator) + [separator] + fields[|fields| - 1]
  }

  /** All the fields run together. */
  function Flatten(fields: seq<string>): string
    decreases |fields|
  {
    if fields == [] then "" else Flatten(fields[..|fields| - 1]) + fields[|fields| - 1]
  }

  function QuoteCount(s: string): nat {
    multiset(s)['"']
  }

  /** Whether the character `ch`, read after `prefix`, closes a field: it is
      the separator, it is not caught by the quote or the CR/LF branch, and an
      even number of quotes precede it. */
  predicate SplitsAt(prefix: string, ch: char, separator: char) {
    ch == separator && ch != '"' && ch != '\n' && ch != '\r' && QuoteCount(prefix) % 2 == 0
  }

  /** The number of characters of `line` that close a field. */
  function SplitCount(line: string, separator: char): nat
    decreases |line|
  {
    if line == [] then 0
    else
      var prefix := line[..|line| - 1];
      SplitCount(prefix, separator) + (if SplitsAt(prefix, line[|line| - 1], separator) then 1 else 0)
  }

  predicate NoLineBreak(s: string) {
    forall k :: 0 <= k < |s| ==> s[k] != '\n' && s[k] != '\r'
  }

  // ---------------------------------------------------------------------
  // Properties of the splitter

  lemma JoinSnoc(fields: seq<string>, x: string, separator: char)
    ensures Join(fields + [x], separator) == if fields == [] then x else Join(fields, separator) + [separator] + x
  {
    assert (fields + [x])[..|fields + [x]| - 1] == fields;
  }

  lemma FlattenSnoc(fields: seq<string>, x: string)
    ensures Flatten(fields + [x]) == Flatten(fields) + x
  {
    assert (fields + [x])[..|fields + [x]| - 1] == fields;
  }

  /** The counter of the loop is the number of quotes read so far. */
  lemma {:induction false} ScanCountsQuotes(line: string, separator: char)
    ensures ScanLine(line, separator).quotes == QuoteCount(line)
  {
    if line != [] {
      var prefix := line[..|line| - 1];
      ScanCountsQuotes(prefix, separator);
      assert line == prefix + [line[|line| - 1]];
    }
  }

  /** The number of fields is one more than the number of separators read
      while the quote count was even. */
  lemma {:induction false} FieldCount(line: string, separator: char)
    ensures |Fields(line, separator)| == 1 + SplitCount(line, separator)
  {
    if line != [] {
      var prefix := line[..|line| - 1];
      FieldCount(prefix, separator);
      ScanCountsQuotes(prefix, separator);
    }
  }

  /** Neither the closed fields nor the field being built hold a CR or LF. */
  predicate Clean(st: Scan) {
    (forall i :: 0 <= i < |st.fields| ==> NoLineBreak(st.fields[i])) && NoLineBreak(st.current)
  }

  lemma {:induction false} ScanIsClean(line: string, separator: char)
    ensures Clean(ScanLine(line, separator))
  {
    if line != [] {
      ScanIsClean(line[..|line| - 1], separator);
    }
  }

  /** No field holds a carriage return or a line feed. */
  lemma FieldsHaveNoLineBreaks(line: string, separator: char)
    ensures forall i :: 0 <= i < |Fields(line, separator)| ==> NoLineBreak(Fields(line, separator)[i])
  {
    ScanIsClean(line, separator);
  }

  /** Each step keeps the quotes of the text scanned so far in the fields. */
  lemma StepKeepsQuotes(st: Scan, ch: char, separator: char)
    requires QuoteCount(Flatten(st.fields) + st.current) == st.quotes
    ensures var next := Step(st, ch, separator);
      QuoteCount(Flatten(next.fields) + next.current) == next.quotes
  {
    var next := Step(st, ch, separator);
    if ch == '"' {
      assert Flatten(next.fields) + next.current == (Flatten(st.fields) + st.current) + [ch];
    } else if ch == '\n' || ch == '\r' {
    } else if ch == separator && st.quotes % 2 == 0 {
      FlattenSnoc(st.fields, st.current);
      assert Flatten(next.fields) + next.current == Flatten(st.fields) + st.current;
    } else {
      assert Flatten(next.fields) + next.current == (Flatten(st.fields) + st.current) + [ch];
    }
  }

  lemma {:induction false} ScanKeepsQuotes(line: string, separator: char)
    ensures var st := ScanLine(line, separator);
      QuoteCount(Flatten(st.fields) + st.current) == st.quotes
  {
    if line != [] {
      ScanKeepsQuotes(line[..|line| - 1], separator);
      StepKeepsQuotes(ScanLine(line[..|line| - 1], separator), line[|line| - 1], separator);
    }
  }

  /** Quote characters are kept: the fields hold exactly as many quotes as
      the line. */
  lemma FieldsKeepQuotes(line: string, separator: char)
    ensures QuoteCount(Flatten(Fields(line, separator))) == QuoteCount(line)
  {
    var st := ScanLine(line, separator);
    ScanKeepsQuotes(line, separator);
    ScanCountsQuotes(line, separator);
    FlattenSnoc(st.fields, st.current);
  }

  /** Round trip: writing the fields back with the separator gives the line
      with its carriage returns and line feeds removed.  This holds for every
      separator: a quote separator never splits (the quote branch comes
      first), and neither does a CR or LF separator. */
  lemma {:induction false} JoinFieldsIsStrippedLine(line: string, separator: char)
    ensures Join(Fields(line, separator), separator) == Strip(line)
  {
    if line != [] {
      var prefix := line[..|line| - 1];
      var ch := line[|line| - 1];
      JoinFieldsIsStrippedLine(prefix, separator);
      var st := ScanLine(prefix, separator);
      JoinSnoc(st.fields, st.current, separator);
      if ch == '"' || !(ch == '\n' || ch == '\r' || (ch == separator && st.quotes % 2 == 0)) {
        JoinSnoc(st.fields, st.current + [ch], separator);
        if st.fields != [] {
          assert Join(st.fields, separator) + [separator] + (st.current + [ch])
              == (Join(st.fields, separator) + [separator] + st.current) + [ch];
        }
      } else if ch == '\n' || ch == '\r' {
      } else {
        JoinSnoc(st.fields + [st.current], "", separator);
      }
    }
  }

  /** A separator read while the quote count is odd is copied into the
      field being built; the closed fields and the count are unchanged. */
  lemma QuotedSeparatorExtendsField(line: string, separator: char)
    requires separator != '"' && separator != '\n' && separator != '\r'
    requires QuoteCount(line) % 2 == 1
    ensures var st := ScanLine(line, separator);
      ScanLine(line + [separator], separator) == st.(current := st.current + [separator])
  {
    ScanCountsQuotes(line, separator);
    assert (line + [separator])[..|line|] == line;
  }

  /** A separator read while the quote count is even closes the field being
      built and starts an empty one. */
  lemma UnquotedSeparatorClosesField(line: string, separator: char)
    requires separator != '"' && separator != '\n' && separator != '\r'
    requires QuoteCount(line) % 2 == 0
    ensures var st := ScanLine(line, separator);
      ScanLine(line + [separator], separator) == Scan(st.fields + [st.current], "", st.quotes)
  {
    ScanCountsQuotes(line, separator);
    assert (line + [separator])[..|line|] == line;
  }

  /** An example: `"a,b",c` splits into two fields, the first keeping its
      quotes and its comma. */
  lemma QuotedSeparatorStaysInField()
    ensures Fields("\"a,b\",c", ',') == ["\"a,b\"", "c"]
  {
    var line := "\"a,b\",c";
    assert line[..0] == [];
    assert line[..1] == line[..0] + ['"'];
    assert line[..2] == line[..1] + ['a'];
    assert line[..3] == line[..2] + [','];
    assert line[..4] == line[..3] + ['b'];
    assert line[..5] == line[..4] + ['"'];
    assert line[..6] == line[..5] + [','];
    assert line == line[..6] + ['c'];
    assert ScanLine(line[..1], ',') == Scan([], "\"", 1);
    assert ScanLine(line[..2], ',') == Scan([], "\"a", 1);
    assert ScanLine(line[..3], ',') == Scan([], "\"a,", 1);
    assert ScanLine(line[..4], ',') == Scan([], "\"a,b", 1);
    assert ScanLine(line[..5], ',') == Scan([], "\"a,b\"", 2);
    assert ScanLine(line[..6], ',') == Scan(["\"a,b\""], "", 2);
    assert ScanLine(line, ',') == Scan(["\"a,b\""], "c", 2);
  }
}
