/**
 * Quoted CSV fields in the manner of RFC 4180 (section 2, rules 5-7):
 * every field enclosed in double quotes, a double quote inside a field
 * written twice. This is the encoding the dashboard export needs so that
 * a comma inside a cell stays inside that cell; `ParseLine` reads one
 * such line back.
 */
module CsvQuoting {
  import opened Options
  import opened Text

  /** The field's characters with every double quote doubled. */
  function Escape(s: string): (r: string)
    ensures |r| >= |s|
    ensures forall c :: c != '"' ==> (c in r <==> c in s)
  {
    if s == [] then []
    else (if s[0] == '"' then "\"\"" else [s[0]]) + Escape(s[1..])
  }

  /** The field enclosed in double quotes. */
  function QuoteField(s: string): (r: string)
    ensures |r| >= 2 && r[0] == '"' && r[|r| - 1] == '"'
    ensures forall c :: c != '"' ==> (c in r <==> c in s)
  {
    "\"" + Escape(s) + "\""
  }

  /** Every cell quoted, in order. */
  function QuoteAll(cells: seq<string>): (r: seq<string>)
    ensures |r| == |cells|
    ensures forall k :: 0 <= k < |cells| ==> r[k] == QuoteField(cells[k])
  {
    if cells == [] then [] else [QuoteField(cells[0])] + QuoteAll(cells[1..])
  }

  /**
   * Reads the inside of a quoted field, after its opening quote, up to its
   * closing quote: the field's text (appended to `acc`) and what follows
   * the closing quote; `None` when the closing quote is missing.
   */
  function ReadQuoted(s: string, acc: string): (r: Option<(string, string)>)
    ensures r.Some? ==> |r.value.1| < |s|
    decreases |s|
  {
    if s == [] then None
    else if s[0] == '"' then
      if |s| >= 2 && s[1] == '"' then ReadQuoted(s[2..], acc + "\"") else Some((acc, s[1..]))
    else ReadQuoted(s[1..], acc + [s[0]])
  }

  /** A line of quoted fields separated by commas, read back into its fields; `None` when malformed. */
  function ParseLine(s: string): (r: Option<seq<string>>)
    ensures r.Some? ==> |r.value| >= 1
    decreases |s|
  {
    if s == [] || s[0] != '"' then None
    else match ReadQuoted(s[1..], "")
      case None => None
      case Some((field, rest)) =>
        if rest == [] then Some([field])
        else if rest[0] != ',' then None
        else match ParseLine(rest[1..])
          case None => None
          case Some(fields) => Some([field] + fields)
  }

  /** An escaped field followed by the closing quote reads back as the field. */
  lemma {:induction false} ReadEscaped(x: string, t: string, acc: string)
    requires t == [] || t[0] != '"'
    ensures ReadQuoted(Escape(x) + "\"" + t, acc) == Some((acc + x, t))
  {
    var s := Escape(x) + "\"" + t;
    if x == [] {
      assert s == "\"" + t;
      assert s[1..] == t;
      assert acc + x == acc;
    } else if x[0] == '"' {
      assert s == "\"\"" + (Escape(x[1..]) + "\"" + t);
      assert s[2..] == Escape(x[1..]) + "\"" + t;
      ReadEscaped(x[1..], t, acc + "\"");
      assert acc + "\"" + x[1..] == acc + x;
    } else {
      assert s == [x[0]] + (Escape(x[1..]) + "\"" + t);
      assert s[1..] == Escape(x[1..]) + "\"" + t;
      ReadEscaped(x[1..], t, acc + [x[0]]);
      assert acc + [x[0]] + x[1..] == acc + x;
    }
  }

  /** A single quoted field is a whole line of one field. */
  lemma ParseOne(c: string)
    ensures ParseLine(QuoteField(c)) == Some([c])
  {
    var s := QuoteField(c);
    assert s[1..] == Escape(c) + "\"" + "";
    ReadEscaped(c, "", "");
    assert "" + c == c;
  }

  /** A quoted field and a comma in front of a line add that field in front of its fields. */
  lemma ParseCons(c: string, u: string)
    ensures ParseLine(QuoteField(c) + [','] + u) ==
      match ParseLine(u)
      case None => None
      case Some(fields) => Some([c] + fields)
  {
    var s := QuoteField(c) + [','] + u;
    assert s[0] == '"';
    assert s[1..] == Escape(c) + "\"" + ([','] + u);
    ReadEscaped(c, [','] + u, "");
    assert "" + c == c;
    assert ([','] + u)[1..] == u;
  }

  /** Any non-empty list of cells, quoted and joined with commas, parses back to the same cells. */
  lemma {:induction false} ParseQuotedLine(cells: seq<string>)
    requires |cells| >= 1
    ensures ParseLine(Join(QuoteAll(cells), ',')) == Some(cells)
  {
    var q := QuoteAll(cells);
    if |cells| == 1 {
      ParseOne(cells[0]);
      assert Join(q, ',') == QuoteField(cells[0]);
      assert cells == [cells[0]];
    } else {
      assert q[1..] == QuoteAll(cells[1..]);
      ParseQuotedLine(cells[1..]);
      assert Join(q, ',') == QuoteField(cells[0]) + [','] + Join(q[1..], ',');
      ParseCons(cells[0], Join(q[1..], ','));
      assert cells == [cells[0]] + cells[1..];
    }
  }

  /** No cell holds a line break. */
  predicate NoLineBreak(cells: seq<string>)
  {
    forall j :: 0 <= j < |cells| ==> '\n' !in cells[j]
  }

  /** The cells quoted and joined with commas: one line that reads back as those cells. */
  function QuotedLine(cells: seq<string>): (r: string)
    requires |cells| >= 1
    ensures ParseLine(r) == Some(cells)
    ensures NoLineBreak(cells) ==> '\n' !in r
  {
    var q := QuoteAll(cells);
    ParseQuotedLine(cells);
    if NoLineBreak(cells) then
      JoinAvoids(q, ',', '\n');
      Join(q, ',')
    else
      Join(q, ',')
  }

  /** Every row of a table quoted into its own line. */
  function QuotedLines(table: seq<seq<string>>): (r: seq<string>)
    requires forall k :: 0 <= k < |table| ==> |table[k]| >= 1
    ensures |r| == |table|
    ensures forall k :: 0 <= k < |table| ==> ParseLine(r[k]) == Some(table[k])
    ensures forall k :: 0 <= k < |table| && NoLineBreak(table[k]) ==> '\n' !in r[k]
  {
    if table == [] then []
    else
      var rest := QuotedLines(table[1..]);
      var r := [QuotedLine(table[0])] + rest;
      assert forall k :: 0 < k < |r| ==> r[k] == rest[k - 1] && table[k] == table[1..][k - 1];
      r
  }
}
