/**
 * The lexical parsers of src/parser/basics.rs. Each follows nom's `IResult`
 * on complete input: it either consumes a prefix of the input and returns a
 * value with the unconsumed rest, or fails without consuming anything.
 */
module ParserBasics {
  import opened Wrappers
  import opened Decimal

  /** A parser's outcome: the value and the rest of the input, or a recoverable error. */
  datatype Parsed<T> = Done(value: T, rest: string) | Failed

  /** The length of the longest prefix of `s` whose characters all satisfy `p`. */
  function SpanLength(s: string, p: char -> bool): (n: nat)
    ensures n <= |s|
    ensures forall i :: 0 <= i < n ==> p(s[i])
    ensures n < |s| ==> !p(s[n])
  {
    if s == [] || !p(s[0]) then 0 else 1 + SpanLength(s[1..], p)
  }

  /** A text made of `p`-characters, followed by one that is not, spans exactly the text. */
  lemma {:induction false} SpanOfPrefix(u: string, v: string, p: char -> bool)
    requires forall i :: 0 <= i < |u| ==> p(u[i])
    requires v == [] || !p(v[0])
    ensures SpanLength(u + v, p) == |u|
  {
    if u != [] {
      assert (u + v)[1..] == u[1..] + v;
      SpanOfPrefix(u[1..], v, p);
    }
  }

  /** The characters `parse_ident` accepts. Only ASCII letters and digits are modelled as alphanumeric. */
  predicate IsIdentChar(c: char) {
    ('a' <= c <= 'z') || ('A' <= c <= 'Z') || ('0' <= c <= '9') || c == '_' || c == '-'
  }

  predicate IsIdent(s: string) {
    |s| > 0 && forall i :: 0 <= i < |s| ==> IsIdentChar(s[i])
  }

  /** `parse_ident`: the longest non-empty run of identifier characters. */
  function ParseIdent(input: string): (r: Parsed<string>)
    ensures r.Done? <==> |input| > 0 && IsIdentChar(input[0])
    ensures r.Done? ==> IsIdent(r.value) && input == r.value + r.rest
    ensures r.Done? ==> r.rest == [] || !IsIdentChar(r.rest[0])
  {
    var n := SpanLength(input, IsIdentChar);
    if n == 0 then Failed
    else
      assert input == input[..n] + input[n..];
      Done(input[..n], input[n..])
  }

  /** An identifier followed by something that cannot continue it is read whole. */
  lemma ParseIdentOf(ident: string, rest: string)
    requires IsIdent(ident) && (rest == [] || !IsIdentChar(rest[0]))
    ensures ParseIdent(ident + rest) == Done(ident, rest)
  {
    SpanOfPrefix(ident, rest, IsIdentChar);
    assert (ident + rest)[..|ident|] == ident;
  }

  predicate IsQuote(c: char) {
    c == '\''
  }

  /** A text `parse_string` can return: non-empty and without a quote. */
  predicate IsQuotable(s: string) {
    |s| > 0 && '\'' !in s
  }

  /** `parse_string`: a quote, a non-empty body without quotes, and the closing quote. */
  function ParseString(input: string): (r: Parsed<string>)
    ensures r.Done? ==> IsQuotable(r.value) && input == "'" + r.value + "'" + r.rest
  {
    if input == [] || input[0] != '\'' then Failed
    else
      var n := SpanLength(input[1..], c => !IsQuote(c));
      if n == 0 || n + 1 >= |input| then Failed
      else
        assert input == "'" + input[1..n + 1] + "'" + input[n + 2..];
        Done(input[1..n + 1], input[n + 2..])
  }

  /** A quoted text is read back whatever follows it. */
  lemma ParseStringOf(body: string, rest: string)
    requires IsQuotable(body)
    ensures ParseString("'" + body + "'" + rest) == Done(body, rest)
  {
    var input := "'" + body + "'" + rest;
    assert input[1..] == body + ("'" + rest);
    SpanOfPrefix(body, "'" + rest, c => !IsQuote(c));
    assert input[1..|body| + 1] == body;
  }

  /**
   * `parse_number`: the longest run of digits, read as an `i64`; the run must
   * be non-empty and its value must fit.
   */
  function ParseNumber(input: string): (r: Parsed<int>)
    ensures r.Done? ==> 0 <= r.value <= I64_MAX
    ensures r.Done? ==> |r.rest| < |input| && input[..|input| - |r.rest|] + r.rest == input
    ensures r.Done? ==> var digits := input[..|input| - |r.rest|];
      AllDigits(digits) && r.value == Fold(0, digits) && (r.rest == [] || !IsDigit(r.rest[0]))
    ensures r.Failed? <==> (input == [] || !IsDigit(input[0])
                           || Fold(0, input[..SpanLength(input, IsDigit)]) > I64_MAX)
  {
    var n := SpanLength(input, IsDigit);
    var digits := input[..n];
    assert AllDigits(digits);
    assert input == digits + input[n..];
    if n == 0 then Failed
    else
      ScanDigits(digits, 0, I64_MAX);
      match ParseInt(digits, I64_MIN, I64_MAX)
      case Ok(v) => Done(v, input[n..])
      case Err(_) => Failed
  }

  /** The decimal rendering of an `i64` that is not followed by a digit is read back. */
  lemma ParseNumberOf(n: nat, rest: string)
    requires n <= I64_MAX && (rest == [] || !IsDigit(rest[0]))
    ensures ParseNumber(Show(n) + rest) == Done(n, rest)
  {
    var input := Show(n) + rest;
    SpanOfPrefix(Show(n), rest, IsDigit);
    assert input[..|Show(n)|] == Show(n);
    ParseShow(n, I64_MIN, I64_MAX);
  }

  /** A run of `n` spaces. */
  function Blanks(n: nat): (s: string)
    ensures |s| == n && forall i :: 0 <= i < n ==> s[i] == ' '
  {
    seq(n, _ => ' ')
  }

  predicate IsSpace(c: char) {
    c == ' '
  }

  /** `parse_separator`: spaces, one comma, spaces; it returns the comma. */
  function ParseSeparator(input: string): (r: Parsed<string>)
    ensures r.Done? ==> r.value == ","
    ensures r.Done? ==> exists i, j :: input == Blanks(i) + "," + Blanks(j) + r.rest
    ensures r.Done? ==> r.rest == [] || r.rest[0] != ' '
    ensures r.Failed? <==> var i := SpanLength(input, IsSpace); i == |input| || input[i] != ','
  {
    var i := SpanLength(input, IsSpace);
    if i < |input| && input[i] == ',' then
      var after := input[i + 1..];
      var j := SpanLength(after, IsSpace);
      assert input[..i] == Blanks(i);
      assert after[..j] == Blanks(j);
      assert input == input[..i] + "," + after[..j] + after[j..];
      Done(",", after[j..])
    else
      Failed
  }

  /** Any spacing around the comma is consumed. */
  lemma ParseSeparatorOf(i: nat, j: nat, rest: string)
    requires rest == [] || rest[0] != ' '
    ensures ParseSeparator(Blanks(i) + "," + Blanks(j) + rest) == Done(",", rest)
  {
    var input := Blanks(i) + "," + Blanks(j) + rest;
    SpanOfPrefix(Blanks(i), "," + Blanks(j) + rest, IsSpace);
    assert input[i] == ',';
    var after := input[i + 1..];
    assert after == Blanks(j) + rest;
    SpanOfPrefix(Blanks(j), rest, IsSpace);
    assert after[j..] == rest;
    SeparatorAt(input, i, j, rest);
  }

  /** A comma after the leading spaces, and the spaces after it, leave what follows. */
  lemma SeparatorAt(input: string, i: nat, j: nat, rest: string)
    requires SpanLength(input, IsSpace) == i && i < |input| && input[i] == ','
    requires SpanLength(input[i + 1..], IsSpace) == j && j <= |input[i + 1..]| && input[i + 1..][j..] == rest
    ensures ParseSeparator(input) == Done(",", rest)
  {
  }

  /** The unit tests' identifier read whole. */
  lemma IdentExample()
    ensures ParseIdent("ident_is-ok") == Done("ident_is-ok", "")
  {
    var ident := "ident_is-ok";
    assert IsIdent(ident) by {
      forall i | 0 <= i < |ident| ensures IsIdentChar(ident[i]) {
      }
    }
    ParseIdentOf(ident, "");
    assert ident + "" == ident;
  }

  /** The unit tests' identifier cut at the first space. */
  lemma IdentStopsExample()
    ensures ParseIdent("this is not ok") == Done("this", " is not ok")
  {
    assert IsIdent("this");
    assert "this is not ok" == "this" + " is not ok";
    ParseIdentOf("this", " is not ok");
  }

  /** The unit tests' quoted text running to the end of the input. */
  lemma StringExample()
    ensures ParseString("'holo, cómo estás?'") == Done("holo, cómo estás?", "")
  {
    assert "'holo, cómo estás?'" == "'" + "holo, cómo estás?" + "'" + "";
    ParseStringOf("holo, cómo estás?", "");
  }

  /** The unit tests' quoted text followed by more input. */
  lemma StringStopsExample()
    ensures ParseString("'holo' #wed2@ws") == Done("holo", " #wed2@ws")
  {
    assert "'holo' #wed2@ws" == "'" + "holo" + "'" + " #wed2@ws";
    ParseStringOf("holo", " #wed2@ws");
  }

  /** The unit tests' number taking the whole input. */
  lemma NumberExample()
    ensures ParseNumber("12345") == Done(12345, "")
  {
    assert Show(12345) == "12345" by {
      assert Digits(1234) == "1234" by {
        assert Digits(123) == "123" by {
          assert Digits(12) == "12" by { assert Digits(1) == "1"; }
        }
      }
    }
    ParseNumberOf(12345, "");
    assert Show(12345) + "" == "12345";
  }

  /** The unit tests' number cut at the first non-digit. */
  lemma NumberStopsExample()
    ensures ParseNumber("12c3") == Done(12, "c3")
  {
    assert Show(12) == "12" by { assert Digits(1) == "1"; }
    assert "12c3" == Show(12) + "c3";
    ParseNumberOf(12, "c3");
  }
}
