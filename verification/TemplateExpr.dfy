/** The quote-aware splitting of output expressions into a value, filters and filter arguments. */
module TemplateExpr {
  import opened TextUtil

  /** Which quote, if any, the scan is inside. */
  datatype Quote = NoQuote | Inside(mark: char)

  predicate IsQuote(c: char) {
    c == '"' || c == '\''
  }

  /** How many characters one pass of the scanning loop takes: two for an escape inside quotes. */
  function StepLength(s: string, quote: Quote): (n: nat)
    requires s != ""
    ensures 1 <= n <= |s|
  {
    if quote.Inside? && s[0] == '\\' && |s| > 1 then 2 else 1
  }

  /** The quote state after one pass. */
  function StepQuote(s: string, quote: Quote): Quote
    requires s != ""
  {
    if quote.Inside? then
      if s[0] == '\\' && |s| > 1 then quote
      else if s[0] == quote.mark then NoQuote
      else quote
    else if IsQuote(s[0]) then Inside(s[0]) else NoQuote
  }

  /** The pieces of buf + s between separators that stand outside quotes, before stripping. */
  function Split(s: string, sep: char, quote: Quote, buf: string): (parts: seq<string>)
    ensures parts != []
    decreases |s|
  {
    if s == "" then [buf]
    else if quote.NoQuote? && s[0] == sep then [buf] + Split(s[1..], sep, NoQuote, "")
    else
      var n := StepLength(s, quote);
      Split(s[n..], sep, StepQuote(s, quote), buf + s[..n])
  }

  /** The scanning loop shared by _split_pipeline and _split_args. */
  method SplitLoop(expr: string, sep: char) returns (parts: seq<string>)
    requires !IsQuote(sep)
    ensures parts == Split(expr, sep, NoQuote, "")
  {
    hide StepLength, StepQuote;
    parts := [];
    var buf := "";
    var quote := NoQuote;
    var i := 0;
    assert expr[0..] == expr;
    while i < |expr|
      invariant 0 <= i <= |expr|
      invariant Split(expr, sep, NoQuote, "") == parts + Split(expr[i..], sep, quote, buf)
    {
      if quote.NoQuote? && expr[i] == sep {
        assert expr[i..][1..] == expr[i + 1..];
        parts := parts + [buf];
        buf := "";
        i := i + 1;
      } else {
        var n := StepLength(expr[i..], quote);
        assert expr[i..][n..] == expr[i + n..] && expr[i..][..n] == expr[i..i + n];
        buf := buf + expr[i..i + n];
        quote := StepQuote(expr[i..], quote);
        i := i + n;
      }
    }
    assert expr[i..] == "";
    parts := parts + [buf];
  }

  function StripAll(parts: seq<string>): seq<string> {
    seq(|parts|, i requires 0 <= i < |parts| => Strip(parts[i]))
  }

  /** _split_pipeline: the value and the filter segments. */
  function SplitPipeline(expr: string): seq<string> {
    StripAll(Split(expr, '|', NoQuote, ""))
  }

  /** _split_args: like the pipeline, but a blank last argument is dropped. */
  function SplitArgs(raw: string): seq<string> {
    var parts := StripAll(Split(raw, ',', NoQuote, ""));
    if parts[|parts| - 1] == "" then parts[..|parts| - 1] else parts
  }

  // ---------------------------------------------------------------------------------------------
  // Nothing is lost
  // ---------------------------------------------------------------------------------------------

  function Join(parts: seq<string>, sep: string): string {
    if parts == [] then "" else if |parts| == 1 then parts[0] else parts[0] + sep + Join(parts[1..], sep)
  }

  /** Whatever the quoting, putting the separators back gives the expression. */
  lemma {:induction false} SplitIsLossless(s: string, sep: char, quote: Quote, buf: string)
    ensures Join(Split(s, sep, quote, buf), [sep]) == buf + s
    decreases |s|
  {
    hide StepLength, StepQuote;
    if s == "" {
    } else if quote.NoQuote? && s[0] == sep {
      var more := Split(s[1..], sep, NoQuote, "");
      SplitIsLossless(s[1..], sep, NoQuote, "");
      assert ([buf] + more)[1..] == more;
      assert buf + [sep] + s[1..] == buf + s;
    } else {
      var n := StepLength(s, quote);
      SplitIsLossless(s[n..], sep, StepQuote(s, quote), buf + s[..n]);
      assert (buf + s[..n]) + s[n..] == buf + s;
    }
  }

  // ---------------------------------------------------------------------------------------------
  // Pieces that survive joining
  // ---------------------------------------------------------------------------------------------

  /** From this quote state the scan passes over s without a bare separator and ends outside quotes. */
  predicate Closed(s: string, sep: char, quote: Quote)
    decreases |s|
  {
    if s == "" then quote.NoQuote?
    else if quote.NoQuote? && s[0] == sep then false
    else if quote.Inside? && s[0] == '\\' && |s| == 1 then false
    else Closed(s[StepLength(s, quote)..], sep, StepQuote(s, quote))
  }

  predicate Piece(s: string, sep: char) {
    s != "" && Stripped(s) && Closed(s, sep, NoQuote)
  }

  lemma {:induction false} SplitPasses(s: string, rest: string, sep: char, quote: Quote, buf: string)
    requires Closed(s, sep, quote)
    ensures Split(s + rest, sep, quote, buf) == Split(rest, sep, NoQuote, buf + s)
    decreases |s|
  {
    if s == "" {
      assert s + rest == rest && buf + s == buf;
    } else {
      var n := StepLength(s, quote);
      StepLocal(s, rest, quote);
      assert (s + rest)[n..] == s[n..] + rest && (s + rest)[..n] == s[..n];
      SplitPasses(s[n..], rest, sep, StepQuote(s, quote), buf + s[..n]);
      assert buf + s[..n] + s[n..] == buf + s;
    }
  }

  lemma StepLocal(s: string, rest: string, quote: Quote)
    requires s != "" && !(quote.Inside? && s[0] == '\\' && |s| == 1)
    ensures StepLength(s + rest, quote) == StepLength(s, quote) && StepQuote(s + rest, quote) == StepQuote(s, quote)
  {
    assert (s + rest)[0] == s[0];
  }

  /** Pieces joined by a separator with blanks after it come back, one by one, after stripping. */
  lemma {:induction false} SplitJoined(parts: seq<string>, sep: char, buf: string)
    requires parts != [] && (forall i :: 0 <= i < |parts| ==> Piece(parts[i], sep))
    requires !IsSpace(sep) && !IsQuote(sep)
    requires buf == "" || buf == " "
    ensures StripAll(Split(Join(parts, [sep, ' ']), sep, NoQuote, buf)) == parts
    decreases |parts|
  {
    hide Closed, Stripped, Strip;
    var first := parts[0];
    StripBuffered(first, buf);
    if |parts| == 1 {
      SplitPasses(first, "", sep, NoQuote, buf);
      assert first + "" == first;
      assert StripAll([buf + first]) == [first];
    } else {
      var rest := Join(parts[1..], [sep, ' ']);
      SplitPasses(first, [sep, ' '] + rest, sep, NoQuote, buf);
      assert first + [sep, ' '] + rest == first + ([sep, ' '] + rest);
      SplitAtSeparator(rest, sep, buf + first);
      assert forall i :: 0 <= i < |parts[1..]| ==> parts[1..][i] == parts[i + 1];
      SplitJoined(parts[1..], sep, " ");
      var tail := Split(rest, sep, NoQuote, " ");
      assert StripAll([buf + first] + tail) == [first] + StripAll(tail);
      assert [first] + parts[1..] == parts;
    }
  }

  lemma SplitAtSeparator(rest: string, sep: char, buf: string)
    requires !IsSpace(sep) && !IsQuote(sep)
    ensures Split([sep, ' '] + rest, sep, NoQuote, buf) == [buf] + Split(rest, sep, NoQuote, " ")
  {
    var s := [sep, ' '] + rest;
    assert s[1..] == [' '] + rest;
    assert ([' '] + rest)[1..] == rest && ([' '] + rest)[..1] == " ";
    assert "" + " " == " ";
  }

  lemma StripBuffered(s: string, buf: string)
    requires Stripped(s) && (buf == "" || buf == " ")
    ensures Strip(buf + s) == s
  {
    if buf == "" {
      assert buf + s == s;
      StripFixes(s);
    } else {
      StripLeadingSpace(s);
    }
  }

  /** Arguments written with commas are split back into the same arguments, the empty list too. */
  lemma ArgsRoundTrip(args: seq<string>)
    requires forall i :: 0 <= i < |args| ==> Piece(args[i], ',')
    ensures SplitArgs(Join(args, ", ")) == args
  {
    if args == [] {
      StripFixes("");
    } else {
      SplitJoined(args, ',', "");
      assert args[|args| - 1] != "";
    }
  }

  // ---------------------------------------------------------------------------------------------
  // Whole output expressions
  // ---------------------------------------------------------------------------------------------

  /** One filter: its name and argument tokens; hasArgs says whether a colon was written. */
  datatype Filter = Filter(name: string, hasArgs: bool, args: seq<string>)

  function FindColon(s: string): (n: nat)
    ensures n <= |s|
  {
    if s == "" || s[0] == ':' then 0 else 1 + FindColon(s[1..])
  }

  /** How _eval_output_expr reads one non-empty filter segment. */
  function ParseFilter(segment: string): Filter {
    var k := FindColon(segment);
    if k == |segment| then Filter(Strip(segment), false, [])
    else Filter(Strip(segment[..k]), true, SplitArgs(segment[k + 1..]))
  }

  function PrintFilter(f: Filter): string {
    if f.hasArgs then f.name + ": " + Join(f.args, ", ") else f.name
  }

  /** A filter name, free of the characters that the splitting gives a meaning to. */
  predicate FilterName(s: string) {
    s != "" && forall i :: 0 <= i < |s| ==> !IsSpace(s[i]) && !IsQuote(s[i]) && s[i] != ':' && s[i] != '|'
  }

  predicate GoodFilter(f: Filter) {
    && FilterName(f.name)
    && (f.hasArgs <==> f.args != [])
    && (forall i :: 0 <= i < |f.args| ==> Piece(f.args[i], ',') && Closed(f.args[i], '|', NoQuote))
  }

  lemma {:induction false} FindColonAfter(name: string, rest: string)
    requires forall i :: 0 <= i < |name| ==> name[i] != ':'
    requires rest == "" || rest[0] == ':'
    ensures FindColon(name + rest) == |name|
  {
    if name == "" {
      assert name + rest == rest;
    } else {
      assert (name + rest)[1..] == name[1..] + rest;
      FindColonAfter(name[1..], rest);
    }
  }

  lemma FilterNameStripped(s: string)
    requires FilterName(s)
    ensures Strip(s) == s
  {
    StripFixes(s);
  }

  lemma FilterRoundTrip(f: Filter)
    requires GoodFilter(f)
    ensures ParseFilter(PrintFilter(f)) == f
  {
    hide Closed, Strip, SplitArgs;
    FilterNameStripped(f.name);
    if f.hasArgs {
      var args := Join(f.args, ", ");
      var rest := ": " + args;
      assert PrintFilter(f) == f.name + rest;
      FindColonAfter(f.name, rest);
      assert (f.name + rest)[..|f.name|] == f.name;
      assert (f.name + rest)[|f.name| + 1..] == " " + args;
      SpacedArgs(f.args);
    } else {
      FindColonAfter(f.name, "");
      assert f.name + "" == f.name;
    }
  }

  lemma {:induction false} SplitBlank(s: string)
    ensures Split(" " + s, ',', NoQuote, "") == Split(s, ',', NoQuote, " ")
  {
    assert (" " + s)[1..] == s && (" " + s)[..1] == " " && "" + " " == " ";
  }

  lemma {:induction false} SpacedArgs(args: seq<string>)
    requires args != [] && forall i :: 0 <= i < |args| ==> Piece(args[i], ',')
    ensures SplitArgs(" " + Join(args, ", ")) == args
  {
    hide Split, Closed, Strip;
    SplitBlank(Join(args, ", "));
    SplitJoined(args, ',', " ");
    assert args[|args| - 1] != "";
  }

  // A printed filter is itself a piece of the pipeline.

  lemma {:induction false} ClosedConcat(a: string, b: string, sep: char, quote: Quote)
    requires Closed(a, sep, quote) && Closed(b, sep, NoQuote)
    ensures Closed(a + b, sep, quote)
    decreases |a|
  {
    if a == "" {
      assert a + b == b;
    } else {
      var n := StepLength(a, quote);
      StepLocal(a, b, quote);
      assert (a + b)[n..] == a[n..] + b;
      ClosedConcat(a[n..], b, sep, StepQuote(a, quote));
    }
  }

  lemma {:induction false} PlainClosed(s: string, sep: char)
    requires forall i :: 0 <= i < |s| ==> s[i] != sep && !IsQuote(s[i])
    ensures Closed(s, sep, NoQuote)
    decreases |s|
  {
    if s != "" {
      PlainClosed(s[1..], sep);
    }
  }

  lemma {:induction false} JoinClosed(args: seq<string>)
    requires forall i :: 0 <= i < |args| ==> Closed(args[i], '|', NoQuote)
    ensures Closed(Join(args, ", "), '|', NoQuote)
    decreases |args|
  {
    hide Closed;
    PlainClosed("", '|');
    if |args| > 1 {
      PlainClosed(", ", '|');
      JoinClosed(args[1..]);
      ClosedConcat(", ", Join(args[1..], ", "), '|', NoQuote);
      ClosedConcat(args[0], ", " + Join(args[1..], ", "), '|', NoQuote);
      assert args[0] + ", " + Join(args[1..], ", ") == args[0] + (", " + Join(args[1..], ", "));
    }
  }

  lemma {:induction false} JoinEnds(args: seq<string>)
    requires args != [] && forall i :: 0 <= i < |args| ==> args[i] != "" && Stripped(args[i])
    ensures var s := Join(args, ", "); s != "" && !IsSpace(s[|s| - 1])
    decreases |args|
  {
    if |args| > 1 {
      JoinEnds(args[1..]);
    }
  }

  lemma PrintedFilterIsPiece(f: Filter)
    requires GoodFilter(f)
    ensures Piece(PrintFilter(f), '|')
  {
    hide Closed;
    PlainClosed(f.name, '|');
    if f.hasArgs {
      JoinClosed(f.args);
      JoinEnds(f.args);
      PlainClosed(": ", '|');
      var args := Join(f.args, ", ");
      ClosedConcat(": ", args, '|', NoQuote);
      ClosedConcat(f.name, ": " + args, '|', NoQuote);
      assert f.name + ": " + args == f.name + (": " + args);
    }
  }

  function PrintAll(filters: seq<Filter>): seq<string> {
    seq(|filters|, i requires 0 <= i < |filters| => PrintFilter(filters[i]))
  }

  function ParseAll(segments: seq<string>): seq<Filter> {
    seq(|segments|, i requires 0 <= i < |segments| => ParseFilter(segments[i]))
  }

  /** The value token and filters _eval_output_expr evaluates, in order. */
  function ParseOutput(expr: string): (string, seq<Filter>) {
    var parts := SplitPipeline(expr);
    (parts[0], ParseAll(parts[1..]))
  }

  function PrintOutput(value: string, filters: seq<Filter>): string {
    Join([value] + PrintAll(filters), "| ")
  }

  /** A printed output expression is read back as the same value, filters and arguments. */
  lemma OutputRoundTrip(value: string, filters: seq<Filter>)
    requires Piece(value, '|') && forall i :: 0 <= i < |filters| ==> GoodFilter(filters[i])
    ensures ParseOutput(PrintOutput(value, filters)) == (value, filters)
  {
    hide Piece, GoodFilter, ParseFilter, PrintFilter, Join, Split, StripAll;
    var parts := [value] + PrintAll(filters);
    forall i | 0 <= i < |parts|
      ensures Piece(parts[i], '|') && (i > 0 ==> ParseFilter(parts[i]) == filters[i - 1])
    {
      if i > 0 {
        PrintedFilterIsPiece(filters[i - 1]);
        FilterRoundTrip(filters[i - 1]);
      }
    }
    SplitJoined(parts, '|', "");
    assert ParseAll(parts[1..]) == filters;
  }
}
