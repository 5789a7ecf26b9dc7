/** The search string printed from a transaction filter, and a reader of the printed grammar. */
module TxFilter {
  import opened Decimal

  const TX_HEIGHT := "tx.height"
  const AND := " AND "

  /** A JSON number whose conversion to uint64 is defined; it drops the fraction. */
  type Float = r: real | -1.0 < r < 18446744073709551616.0

  function ToUint64(r: Float): Uint64 {
    if r < 0.0 then 0 else r.Floor
  }

  datatype Value = Text(text: string) | Number(number: Float) | Unsigned(n: Uint64) | Other

  datatype Row = Row(field: string, op: string, value: Value)

  /** A clause of the search string: field, operator sign, and a quoted text or a number. */
  datatype TermValue = Quoted(text: string) | Plain(n: nat)

  datatype Term = Term(field: string, sign: string, value: TermValue)

  function ToLower(s: string): string {
    if s == [] then [] else
      [if 'A' <= s[0] <= 'Z' then s[0] - 'A' + 'a' else s[0]] + ToLower(s[1..])
  }

  function GetOpSign(op: string): Option<string> {
    var lower := ToLower(op);
    if lower == "eq" then Some("=")
    else if lower == "gt" then Some(">")
    else if lower == "gte" then Some(">=")
    else if lower == "lt" then Some("<")
    else if lower == "lte" then Some("<=")
    else None
  }

  // ----- printing -----

  function ShowValue(v: TermValue): string {
    match v
    case Quoted(text) => "'" + text + "'"
    case Plain(n) => FormatUint(n)
  }

  function ShowTerm(t: Term): string {
    t.field + t.sign + ShowValue(t.value)
  }

  /** The clause a row stands for; values of other types stand for none. */
  function TermOf(row: Row): Option<Term>
    requires GetOpSign(row.op).Some?
  {
    var sign := GetOpSign(row.op).value;
    match row.value
    case Text(text) => Some(Term(row.field, sign, Quoted(text)))
    case Number(r) => Some(Term(row.field, sign, Plain(ToUint64(r))))
    case Unsigned(n) => Some(Term(row.field, sign, Plain(n)))
    case Other => None
  }

  predicate OpsKnown(rows: seq<Row>) {
    forall i :: 0 <= i < |rows| ==> GetOpSign(rows[i].op).Some?
  }

  /** The clauses of the rows with a supported value type, in order. */
  function TermsOf(rows: seq<Row>): seq<Term>
    requires OpsKnown(rows)
  {
    if rows == [] then []
    else
      var last := TermOf(rows[|rows| - 1]);
      TermsOf(rows[..|rows| - 1]) + if last.Some? then [last.value] else []
  }

  function ShowAll(terms: seq<Term>): seq<string> {
    seq(|terms|, i requires 0 <= i < |terms| => ShowTerm(terms[i]))
  }

  function Join(parts: seq<string>): string {
    if parts == [] then ""
    else if |parts| == 1 then parts[0]
    else parts[0] + (AND + Join(parts[1..]))
  }

  function ShowTerms(terms: seq<Term>): string {
    Join(ShowAll(terms))
  }

  lemma ShowAllLonger(terms: seq<Term>, t: Term)
    ensures ShowAll(terms + [t]) == ShowAll(terms) + [ShowTerm(t)]
  {
  }

  lemma TermsOfLonger(rows: seq<Row>)
    requires rows != [] && OpsKnown(rows)
    ensures var last := TermOf(rows[|rows| - 1]);
            ShowAll(TermsOf(rows))
            == ShowAll(TermsOf(rows[..|rows| - 1])) + if last.Some? then [ShowTerm(last.value)] else []
  {
    var front, last := TermsOf(rows[..|rows| - 1]), TermOf(rows[|rows| - 1]);
    if last.Some? {
      ShowAllLonger(front, last.value);
    } else {
      assert front + [] == front;
    }
  }

  /** One more row adds its clause, if it has one. */
  lemma RowAdded(rows: seq<Row>, i: nat)
    requires i < |rows| && OpsKnown(rows[..i]) && GetOpSign(rows[i].op).Some?
    ensures OpsKnown(rows[..i + 1])
    ensures var term := TermOf(rows[i]);
            ShowAll(TermsOf(rows[..i + 1]))
            == ShowAll(TermsOf(rows[..i])) + if term.Some? then [ShowTerm(term.value)] else []
  {
    var longer := rows[..i + 1];
    forall j | 0 <= j < |longer| ensures GetOpSign(longer[j].op).Some? {
      assert j < i ==> longer[j] == rows[..i][j];
    }
    assert longer[..|longer| - 1] == rows[..i];
    TermsOfLonger(longer);
  }

  method QueryFromTxFilter(rows: seq<Row>) returns (query: Option<string>)
    ensures query.None? <==> !OpsKnown(rows)
    ensures query.Some? ==> query.value == ShowTerms(TermsOf(rows))
  {
    var parts: seq<string> := [];
    for i := 0 to |rows|
      invariant OpsKnown(rows[..i])
      invariant parts == ShowAll(TermsOf(rows[..i]))
    {
      var sign := GetOpSign(rows[i].op);
      if sign.None? { return None; }
      RowAdded(rows, i);
      match rows[i].value {
        case Text(text) => parts := parts + [rows[i].field + sign.value + ("'" + text + "'")];
        case Number(r) => parts := parts + [rows[i].field + sign.value + FormatUint(ToUint64(r))];
        case Unsigned(n) => parts := parts + [rows[i].field + sign.value + FormatUint(n)];
        case Other =>
      }
    }
    assert rows[..|rows|] == rows;
    query := Some(Join(parts));
  }

  /** The filter of a query is extended by the stored height before it is printed. */
  method BuildTxQuery(filter: seq<Row>, storedHeight: Uint64) returns (query: Option<string>)
    ensures query.None? <==> !OpsKnown(filter)
    ensures query.Some? ==> query.value == SearchString(filter, storedHeight)
  {
    var rows := filter + [Row(TX_HEIGHT, "gt", Unsigned(storedHeight))];
    GtIsKnown();
    query := QueryFromTxFilter(rows);
    if OpsKnown(filter) {
      assert rows[..|rows| - 1] == filter;
    } else {
      var i :| 0 <= i < |filter| && GetOpSign(filter[i].op).None?;
      assert rows[i] == filter[i];
    }
  }

  /** The clauses of the filter in order, and last tx.height > stored height. */
  function SearchString(filter: seq<Row>, storedHeight: Uint64): string
    requires OpsKnown(filter)
  {
    ShowTerms(TermsOf(filter) + [HeightTerm(storedHeight)])
  }

  function HeightTerm(height: Uint64): Term {
    Term(TX_HEIGHT, ">", Plain(height))
  }

  lemma GtIsKnown()
    ensures GetOpSign("gt") == Some(">")
  {
    assert "gt"[1..] == "t" && "t"[1..] == "";
    assert ToLower("") == "" && ToLower("t") == "t";
    assert ToLower("gt") == "gt" by {
      assert ToLower("gt") == ['g'] + ToLower("gt"[1..]);
    }
  }

  // ----- reading -----

  predicate IsOpChar(c: char) {
    c == '=' || c == '<' || c == '>'
  }

  /** How many characters of s precede the first one that satisfies p. */
  function Until(s: string, p: char -> bool): (n: nat)
    ensures n <= |s|
  {
    if s == [] || p(s[0]) then 0 else 1 + Until(s[1..], p)
  }

  lemma {:induction false} UntilStops(a: string, b: string, p: char -> bool)
    requires forall i :: 0 <= i < |a| ==> !p(a[i])
    requires b == [] || p(b[0])
    ensures Until(a + b, p) == |a|
  {
    if a == [] {
      assert a + b == b;
    } else {
      assert (a + b)[1..] == a[1..] + b;
      UntilStops(a[1..], b, p);
    }
  }

  lemma {:induction false} UntilFinds(s: string, p: char -> bool)
    ensures forall i :: 0 <= i < Until(s, p) ==> !p(s[i])
    ensures Until(s, p) < |s| ==> p(s[Until(s, p)])
  {
    if s != [] && !p(s[0]) {
      UntilFinds(s[1..], p);
    }
  }

  predicate IsQuote(c: char) {
    c == '\''
  }

  predicate IsNotDigit(c: char) {
    !IsDigit(c)
  }

  function ReadSign(s: string): Option<(string, string)> {
    if s == [] then None
    else if s[0] == '=' then Some(("=", s[1..]))
    else if s[0] == '>' then Some(if 1 < |s| && s[1] == '=' then (">=", s[2..]) else (">", s[1..]))
    else if s[0] == '<' then Some(if 1 < |s| && s[1] == '=' then ("<=", s[2..]) else ("<", s[1..]))
    else None
  }

  function ReadText(s: string): Option<(TermValue, string)> {
    var n := Until(s, IsQuote);
    if n == |s| then None else Some((Quoted(s[..n]), s[n + 1..]))
  }

  function ReadNumber(s: string): Option<(TermValue, string)> {
    var n := Until(s, IsNotDigit);
    if n == 0 || (1 < n && s[0] == '0') || ParseUint(s[..n]).None? then None
    else Some((Plain(ParseUint(s[..n]).value), s[n..]))
  }

  function ReadValue(s: string): Option<(TermValue, string)> {
    if s != [] && IsQuote(s[0]) then ReadText(s[1..]) else ReadNumber(s)
  }

  function ReadTerm(s: string): Option<(Term, string)> {
    var n := Until(s, IsOpChar);
    match ReadSign(s[n..]) {
      case None => None
      case Some((sign, tail)) =>
        match ReadValue(tail) {
          case None => None
          case Some((value, rest)) => Some((Term(s[..n], sign, value), rest))
        }
    }
  }

  /** Reads a conjunction: clauses of a key, a comparison sign and a value, joined by AND, up to the end of the text. */
  function ReadTerms(s: string): Option<seq<Term>>
    decreases |s|
  {
    var first := ReadTerm(s);
    if first.None? then None
    else
      var rest := first.value.1;
      if rest == "" then Some([first.value.0])
      else if !(AND <= rest) || |s| <= |rest| - |AND| then None
      else
        var others := ReadTerms(rest[|AND|..]);
        if others.None? then None else Some([first.value.0] + others.value)
  }

  // ----- printing and reading undo each other -----

  predicate IsSign(sign: string) {
    sign == "=" || sign == ">" || sign == ">=" || sign == "<" || sign == "<="
  }

  predicate PrintableValue(v: TermValue) {
    match v
    case Quoted(text) => forall i :: 0 <= i < |text| ==> !IsQuote(text[i])
    case Plain(n) => n < TWO_TO_64
  }

  /** No operator character in the field, no quote in the text, a number below 2^64. */
  predicate Printable(t: Term) {
    (forall i :: 0 <= i < |t.field| ==> !IsOpChar(t.field[i])) && IsSign(t.sign) && PrintableValue(t.value)
  }

  lemma ReadShownText(text: string, rest: string)
    requires forall i :: 0 <= i < |text| ==> !IsQuote(text[i])
    ensures ReadText(text + ("'" + rest)) == Some((Quoted(text), rest))
  {
    var s := text + ("'" + rest);
    UntilStops(text, "'" + rest, IsQuote);
    assert s[..|text|] == text && s[|text| + 1..] == rest;
  }

  lemma ReadShownNumber(n: Uint64, rest: string)
    requires rest == "" || IsNotDigit(rest[0])
    ensures ReadNumber(FormatUint(n) + rest) == Some((Plain(n), rest))
  {
    var s := FormatUint(n) + rest;
    UntilStops(FormatUint(n), rest, IsNotDigit);
    assert s[..|FormatUint(n)|] == FormatUint(n) && s[|FormatUint(n)|..] == rest;
    FormatThenParse(n);
  }

  lemma ReadShownValue(v: TermValue, rest: string)
    requires PrintableValue(v) && (rest == "" || rest[0] == ' ')
    ensures ReadValue(ShowValue(v) + rest) == Some((v, rest))
    ensures ShowValue(v) != "" && ShowValue(v)[0] != '='
  {
    var s := ShowValue(v) + rest;
    match v
    case Quoted(text) =>
      assert s[1..] == text + ("'" + rest);
      ReadShownText(text, rest);
    case Plain(n) =>
      ReadShownNumber(n, rest);
  }

  lemma ReadShownSign(sign: string, tail: string)
    requires IsSign(sign) && tail != "" && tail[0] != '='
    ensures ReadSign(sign + tail) == Some((sign, tail))
    ensures sign != "" && IsOpChar(sign[0])
  {
    assert (sign + tail)[|sign|..] == tail;
  }

  lemma ReadTermParts(field: string, signed: string, sign: string, tail: string, value: TermValue, rest: string)
    requires forall i :: 0 <= i < |field| ==> !IsOpChar(field[i])
    requires signed != "" && IsOpChar(signed[0])
    requires ReadSign(signed) == Some((sign, tail)) && ReadValue(tail) == Some((value, rest))
    ensures ReadTerm(field + signed) == Some((Term(field, sign, value), rest))
  {
    UntilStops(field, signed, IsOpChar);
    assert (field + signed)[..|field|] == field && (field + signed)[|field|..] == signed;
  }

  lemma ShowTermParts(t: Term, rest: string)
    ensures ShowTerm(t) + rest == t.field + (t.sign + (ShowValue(t.value) + rest))
  {
    var v := ShowValue(t.value);
    assert (t.field + t.sign + v) + rest == t.field + (t.sign + (v + rest));
  }

  lemma ReadShownTerm(t: Term, rest: string)
    requires Printable(t) && (rest == "" || rest[0] == ' ')
    ensures ReadTerm(ShowTerm(t) + rest) == Some((t, rest))
  {
    var tail := ShowValue(t.value) + rest;
    ReadShownValue(t.value, rest);
    ReadShownSign(t.sign, tail);
    ShowTermParts(t, rest);
    ReadTermParts(t.field, t.sign + tail, t.sign, tail, t.value, rest);
  }

  lemma JoinStep(terms: seq<Term>)
    requires 1 < |terms|
    ensures ShowTerms(terms) == ShowTerm(terms[0]) + (AND + ShowTerms(terms[1..]))
  {
    assert ShowAll(terms)[1..] == ShowAll(terms[1..]);
  }

  lemma ReadOneTerm(s: string, t: Term)
    requires ReadTerm(s) == Some((t, ""))
    ensures ReadTerms(s) == Some([t])
  {
  }

  lemma ReadMoreTerms(s: string, t: Term, more: string, terms: seq<Term>)
    requires ReadTerm(s) == Some((t, AND + more)) && |more| < |s|
    requires ReadTerms(more) == Some(terms)
    ensures ReadTerms(s) == Some([t] + terms)
  {
    assert (AND + more)[|AND|..] == more;
  }

  /** Reading what was printed gives back the clauses. */
  lemma {:induction false} ReadUndoesShow(terms: seq<Term>)
    requires 0 < |terms| && forall i :: 0 <= i < |terms| ==> Printable(terms[i])
    ensures ReadTerms(ShowTerms(terms)) == Some(terms)
    decreases |terms|
  {
    if |terms| == 1 {
      ReadLast(terms[0]);
      assert terms == [terms[0]];
    } else {
      ReadUndoesShow(terms[1..]);
      ReadFirst(terms);
    }
  }

  lemma ReadLast(t: Term)
    requires Printable(t)
    ensures ReadTerms(ShowTerms([t])) == Some([t])
  {
    ReadShownTerm(t, "");
    assert ShowAll([t]) == [ShowTerm(t)];
    assert ShowTerm(t) + "" == ShowTerm(t);
    ReadOneTerm(ShowTerm(t), t);
  }

  lemma ReadFirst(terms: seq<Term>)
    requires 1 < |terms| && Printable(terms[0])
    requires ReadTerms(ShowTerms(terms[1..])) == Some(terms[1..])
    ensures ReadTerms(ShowTerms(terms)) == Some(terms)
  {
    var more := ShowTerms(terms[1..]);
    JoinStep(terms);
    ReadShownTerm(terms[0], AND + more);
    ReadMoreTerms(ShowTerms(terms), terms[0], more, terms[1..]);
    assert [terms[0]] + terms[1..] == terms;
  }

  lemma ShowReadValue(s: string)
    requires ReadValue(s).Some?
    ensures var (v, rest) := ReadValue(s).value; s == ShowValue(v) + rest && PrintableValue(v)
  {
    if s != [] && IsQuote(s[0]) {
      UntilFinds(s[1..], IsQuote);
    } else {
      var n := Until(s, IsNotDigit);
      UntilFinds(s, IsNotDigit);
      FormatOfValue(s[..n]);
    }
  }

  lemma ShowReadSign(s: string)
    requires ReadSign(s).Some?
    ensures var (sign, tail) := ReadSign(s).value; s == sign + tail && IsSign(sign)
  {
  }

  lemma ShowReadTerm(s: string)
    requires ReadTerm(s).Some?
    ensures var (t, rest) := ReadTerm(s).value; s == ShowTerm(t) + rest && Printable(t)
  {
    var n := Until(s, IsOpChar);
    UntilFinds(s, IsOpChar);
    var field, signed := s[..n], s[n..];
    assert s == field + signed;
    ShowReadSign(signed);
    var (sign, tail) := ReadSign(signed).value;
    ShowReadValue(tail);
    var (value, rest) := ReadValue(tail).value;
    ShowTermParts(Term(field, sign, value), rest);
  }

  /** Printing what was read gives back the string. */
  lemma {:induction false} ShowUndoesRead(s: string)
    requires ReadTerms(s).Some?
    ensures 0 < |ReadTerms(s).value| && ShowTerms(ReadTerms(s).value) == s
    ensures forall i :: 0 <= i < |ReadTerms(s).value| ==> Printable(ReadTerms(s).value[i])
    decreases |s|
  {
    ShowReadTerm(s);
    var (t, rest) := ReadTerm(s).value;
    if rest == "" {
      assert ReadTerms(s).value == [t] && ShowTerms([t]) == ShowTerm(t);
    } else {
      ShowUndoesRead(rest[|AND|..]);
      var terms := ReadTerms(s).value;
      assert terms[1..] == ReadTerms(rest[|AND|..]).value;
      JoinStep(terms);
      assert rest == AND + rest[|AND|..];
    }
  }

  predicate RowPrintable(row: Row) {
    && (forall i :: 0 <= i < |row.field| ==> !IsOpChar(row.field[i]))
    && (row.value.Text? ==> forall i :: 0 <= i < |row.value.text| ==> !IsQuote(row.value.text[i]))
  }

  lemma {:induction false} TermsArePrintable(rows: seq<Row>)
    requires OpsKnown(rows) && forall i :: 0 <= i < |rows| ==> RowPrintable(rows[i])
    ensures forall i :: 0 <= i < |TermsOf(rows)| ==> Printable(TermsOf(rows)[i])
    decreases |rows|
  {
    if rows != [] {
      TermsArePrintable(rows[..|rows| - 1]);
      assert RowPrintable(rows[|rows| - 1]);
    }
  }

  lemma ReadWithHeight(terms: seq<Term>, storedHeight: Uint64)
    requires forall i :: 0 <= i < |terms| ==> Printable(terms[i])
    ensures ReadTerms(ShowTerms(terms + [HeightTerm(storedHeight)])) == Some(terms + [HeightTerm(storedHeight)])
  {
    assert Printable(HeightTerm(storedHeight));
    ReadUndoesShow(terms + [HeightTerm(storedHeight)]);
  }

  /** The search string of a filter says exactly its rows of supported type, in order, and then the stored height. */
  lemma SearchStringSaysFilter(filter: seq<Row>, storedHeight: Uint64)
    requires OpsKnown(filter) && forall i :: 0 <= i < |filter| ==> RowPrintable(filter[i])
    ensures ReadTerms(SearchString(filter, storedHeight)) == Some(TermsOf(filter) + [HeightTerm(storedHeight)])
  {
    TermsArePrintable(filter);
    ReadWithHeight(TermsOf(filter), storedHeight);
  }
}
