/** From template text to tokens, and the text a token list is spelled with. */
module TemplateLexer {
  import opened Prelude
  import opened TextUtil
  import opened Template
  import TemplateLaws
  import TemplateParser

  // ---------------------------------------------------------------------------------------------
  // The tag regex
  // ---------------------------------------------------------------------------------------------

  /** The first place in s where the two-character closing mark occurs. */
  function FindClose(s: string, mark: char, brace: char): (r: Option<nat>)
    ensures r.Some? ==> r.value + 2 <= |s|
  {
    if |s| < 2 then None
    else if s[0] == mark && s[1] == brace then Some(0)
    else
      var more := FindClose(s[1..], mark, brace);
      if more.None? then None else Some(more.value + 1)
  }

  /** A tag or output starting exactly at the front of s: the token and the length matched. */
  function MatchTag(s: string): (r: Option<(Token, nat)>)
    ensures r.Some? ==> 5 <= r.value.1 <= |s|
  {
    if |s| < 3 || s[0] != '{' || (s[1] != '{' && s[1] != '%') then None
    else
      var close := FindClose(s[3..], if s[1] == '{' then '}' else '%', '}');
      if close.None? then None
      else
        var contents := Strip(s[2..close.value + 3]);
        Some((if s[1] == '{' then Output(contents) else Tag(contents), close.value + 5))
  }

  function Flush(pending: string): seq<Token> {
    if pending == "" then [] else [Text(pending)]
  }

  /** The tokens of pending + s, where no tag starts inside pending. */
  function Lex(s: string, pending: string): seq<Token>
    decreases |s|
  {
    if s == "" then Flush(pending)
    else
      var m := MatchTag(s);
      if m.None? then Lex(s[1..], pending + [s[0]])
      else Flush(pending) + [m.value.0] + Lex(s[m.value.1..], "")
  }

  /** The finditer loop of _parse. */
  method LexText(text: string) returns (tokens: seq<Token>)
    ensures tokens == Lex(text, "")
  {
    hide MatchTag, Lex;
    tokens := [];
    var pos, p := 0, 0;
    LexStart(text);
    while p < |text|
      invariant 0 <= pos <= p <= |text|
      invariant Lex(text, "") == tokens + Lex(text[p..], text[pos..p])
    {
      LexStep(text, pos, p);
      var m := MatchTag(text[p..]);
      if m.None? {
        p := p + 1;
      } else {
        tokens := tokens + (Flush(text[pos..p]) + [m.value.0]);
        p := p + m.value.1;
        pos := p;
      }
    }
    LexEnd(text, pos);
    tokens := tokens + Flush(text[pos..]);
  }

  lemma LexStart(text: string)
    ensures Lex(text, "") == [] + Lex(text[0..], text[0..0])
  {
    hide Lex;
    assert text[0..] == text && text[0..0] == "";
  }

  lemma {:induction false} LexStep(text: string, pos: nat, p: nat)
    requires pos <= p < |text|
    ensures var m := MatchTag(text[p..]);
            && (m.None? ==> Lex(text[p..], text[pos..p]) == Lex(text[p + 1..], text[pos..p + 1]))
            && (m.Some? ==> var q := p + m.value.1;
                  Lex(text[p..], text[pos..p]) == Flush(text[pos..p]) + [m.value.0] + Lex(text[q..], text[q..q]))
  {
    hide MatchTag;
    var m := MatchTag(text[p..]);
    assert text[p..][1..] == text[p + 1..];
    assert text[pos..p] + [text[p]] == text[pos..p + 1];
    if m.Some? {
      assert text[p..][m.value.1..] == text[p + m.value.1..];
    }
  }

  lemma {:induction false} LexEnd(text: string, pos: nat)
    requires pos <= |text|
    ensures Lex(text[|text|..], text[pos..|text|]) == Flush(text[pos..])
  {
    assert text[|text|..] == "" && text[pos..|text|] == text[pos..];
  }

  /** _parse: lex, parse at top level, and insist that every token was used. */
  method ParseText(text: string) returns (r: Result<seq<Node>, ParseError>)
    ensures var spec := ParseBlock(Lex(text, ""), TopLevel);
            r == if spec.Ok? then Ok(spec.value.nodes) else Err(spec.error)
  {
    hide ParseBlock;
    var tokens := LexText(text);
    var block := TemplateParser.ParseBlockFrom(tokens, 0, TopLevel);
    assert tokens[0..] == tokens;
    r := if block.Ok? then Ok(block.value.0) else Err(block.error);
  }

  // ---------------------------------------------------------------------------------------------
  // Spelling tokens
  // ---------------------------------------------------------------------------------------------

  function Spell(token: Token): string {
    match token
    case Text(s) => s
    case Output(e) => "{{ " + e + " }}"
    case Tag(t) => "{% " + t + " %}"
  }

  function Source(tokens: seq<Token>): string {
    if tokens == [] then "" else Spell(tokens[0]) + Source(tokens[1..])
  }

  /** No tag can start in s, whatever follows it. */
  predicate OpenFree(s: string) {
    forall i :: 0 <= i < |s| && s[i] == '{' ==> i + 1 < |s| && s[i + 1] != '{' && s[i + 1] != '%'
  }

  predicate CloseFree(s: string, mark: char) {
    forall i :: 0 < i < |s| && s[i] == '}' ==> s[i - 1] != mark
  }

  predicate SpellableToken(token: Token) {
    match token
    case Text(s) => s != "" && OpenFree(s)
    case Output(e) => Stripped(e) && CloseFree(e, '}')
    case Tag(t) => Stripped(t) && CloseFree(t, '%')
  }

  /** Token lists that have a spelling: no two texts touch and no token hides a mark. */
  predicate Spellable(tokens: seq<Token>) {
    && (forall i :: 0 <= i < |tokens| ==> SpellableToken(tokens[i]))
    && (forall i :: 0 < i < |tokens| && tokens[i].Text? ==> !tokens[i - 1].Text?)
  }

  lemma {:induction false} LexPlain(s: string, rest: string, pending: string)
    requires OpenFree(s)
    ensures Lex(s + rest, pending) == Lex(rest, pending + s)
    decreases |s|
  {
    if s == "" {
      assert s + rest == rest && pending + s == pending;
    } else {
      var all := s + rest;
      assert all[0] == s[0];
      if s[0] == '{' {
        assert all[1] == s[1];
      }
      assert MatchTag(all).None?;
      assert all[1..] == s[1..] + rest;
      LexPlain(s[1..], rest, pending + [s[0]]);
      assert pending + [s[0]] + s[1..] == pending + s;
    }
  }

  lemma {:induction false} FindCloseAfter(w: string, mark: char, rest: string)
    requires CloseFree(w, mark) && w != "" && w[|w| - 1] != mark
    ensures FindClose(w + [mark, '}'] + rest, mark, '}') == Some(|w|)
    decreases |w|
  {
    var all := w + [mark, '}'] + rest;
    assert all[0] == w[0];
    if |w| == 1 {
      assert all[1..][0] == mark && all[1..][1] == '}';
    } else {
      assert all[1] == w[1];
      var v := w[1..];
      assert all[1..] == v + [mark, '}'] + rest;
      assert forall i :: 0 <= i < |v| ==> v[i] == w[i + 1];
      FindCloseAfter(v, mark, rest);
    }
  }

  function Mark(second: char): char {
    if second == '{' then '}' else '%'
  }

  /** A tag whose closing mark comes right after w, which follows the blank behind the opening mark. */
  lemma {:induction false} MatchAt(second: char, w: string, rest: string)
    requires second == '{' || second == '%'
    requires FindClose(w + [Mark(second), '}'] + rest, Mark(second), '}') == Some(|w|)
    ensures var inner := Strip(" " + w);
            var token := if second == '{' then Output(inner) else Tag(inner);
            MatchTag(['{', second, ' '] + (w + [Mark(second), '}'] + rest)) == Some((token, |w| + 5))
  {
    hide Strip, FindClose;
    var tail := w + [Mark(second), '}'] + rest;
    var all := ['{', second, ' '] + tail;
    assert all[3..] == tail;
    assert all[2..|w| + 3] == " " + w;
  }

  lemma SpelledParts(token: Token, rest: string)
    requires !token.Text?
    ensures var second := if token.Output? then '{' else '%';
            Spell(token) + rest == ['{', second, ' '] + ((token.s + " ") + [Mark(second), '}'] + rest)
  {
  }

  lemma {:induction false} MatchSpelled(token: Token, rest: string)
    requires SpellableToken(token) && !token.Text?
    ensures MatchTag(Spell(token) + rest) == Some((token, |Spell(token)|))
  {
    hide Strip, FindClose, Stripped, MatchTag, CloseFree;
    var second := if token.Output? then '{' else '%';
    var w := token.s + " ";
    PaddedClose(token.s, Mark(second));
    FindCloseAfter(w, Mark(second), rest);
    MatchAt(second, w, rest);
    StripPadded(token.s);
    SpelledParts(token, rest);
  }

  lemma PaddedClose(s: string, mark: char)
    requires CloseFree(s, mark) && mark != ' '
    ensures CloseFree(s + " ", mark)
  {
  }

  lemma {:induction false} StripPadded(s: string)
    requires Stripped(s)
    ensures Strip(" " + (s + " ")) == s
  {
    hide LStrip, RStrip;
    LStripPadded(s + " ");
    if s == "" {
      BlankStrips();
      assert s + " " == " ";
    } else {
      LStripFixes(s + " ");
      RStripPadded(s);
    }
  }

  lemma {:induction false} LStripPadded(w: string)
    ensures LStrip(" " + w) == LStrip(w)
  {
    assert (" " + w)[1..] == w;
  }

  lemma {:induction false} LStripFixes(w: string)
    requires w != "" && !IsSpace(w[0])
    ensures LStrip(w) == w
  {
  }

  lemma {:induction false} BlankStrips()
    ensures LStrip(" ") == "" && RStrip("") == ""
  {
    assert " "[1..] == "";
  }

  lemma {:induction false} RStripPadded(s: string)
    requires s != "" && !IsSpace(s[|s| - 1])
    ensures RStrip(s + " ") == s
  {
    assert (s + " ")[..|s|] == s;
  }

  lemma {:induction false} LexSource(tokens: seq<Token>)
    requires Spellable(tokens)
    ensures Lex(Source(tokens), "") == tokens
    decreases |tokens|
  {
    hide MatchTag, Strip;
    if tokens != [] {
      var rest := tokens[1..];
      assert Spellable(rest);
      LexSource(rest);
      if tokens[0].Text? {
        var s := tokens[0].s;
        LexPlain(s, Source(rest), "");
        assert "" + s == s;
        LexAfterText(rest, s);
      } else {
        LexTag(tokens[0], Source(rest), "");
      }
    }
  }

  lemma {:induction false} LexTag(token: Token, rest: string, pending: string)
    requires SpellableToken(token) && !token.Text?
    ensures Lex(Spell(token) + rest, pending) == Flush(pending) + [token] + Lex(rest, "")
  {
    hide MatchTag, Strip;
    MatchSpelled(token, rest);
    assert (Spell(token) + rest)[|Spell(token)|..] == rest;
  }

  lemma LexNothing(pending: string)
    ensures Lex("", pending) == Flush(pending)
  {
  }

  /** After a text comes the end or a tag, so the pending text is flushed as it is. */
  lemma {:induction false} LexAfterText(rest: seq<Token>, s: string)
    requires Spellable(rest) && (rest == [] || !rest[0].Text?) && s != ""
    requires Lex(Source(rest), "") == rest
    ensures Lex(Source(rest), s) == [Text(s)] + rest
  {
    hide Lex, Spell, SpellableToken;
    if rest == [] {
      LexNothing(s);
    } else {
      LexTag(rest[0], Source(rest[1..]), s);
      LexTag(rest[0], Source(rest[1..]), "");
      var more := Lex(Source(rest[1..]), "");
      assert Flush("") + [rest[0]] + more == [rest[0]] + more;
      assert Flush(s) + [rest[0]] + more == [Text(s)] + ([rest[0]] + more);
    }
  }

  /** Templates as text: writing a tree out and parsing the text gives the tree. */
  lemma {:induction false} SourceThenParse(nodes: seq<Node>)
    requires WellFormed(nodes) && Spellable(Print(nodes))
    ensures ParseBlock(Lex(Source(Print(nodes)), ""), TopLevel) == Ok(Block(nodes, []))
  {
    LexSource(Print(nodes));
    PrintThenParse(nodes);
  }

  // ---------------------------------------------------------------------------------------------
  // Raw blocks
  // ---------------------------------------------------------------------------------------------

  predicate EndsRaw(token: Token) {
    token.Tag? && Strip(token.s) == "endraw"
  }

  /** The text of a raw block as the template has it, and what follows its end tag. */
  datatype Region = Region(body: string, after: string)

  /** From just after an opening raw tag: everything up to the first tag that ends it. */
  function RawRegion(s: string): Option<Region>
    decreases |s|
  {
    if s == "" then None
    else
      var m := MatchTag(s);
      if m.Some? && EndsRaw(m.value.0) then Some(Region("", s[m.value.1..]))
      else
        var n := if m.Some? then m.value.1 else 1;
        var more := RawRegion(s[n..]);
        if more.None? then None else Some(more.value.(body := s[..n] + more.value.body))
  }

  /** No output or tag matched inside the raw block has blanks inside its marks. */
  predicate Unpadded(s: string)
    decreases |s|
  {
    if s == "" then true
    else
      var m := MatchTag(s);
      if m.None? then Unpadded(s[1..])
      else if EndsRaw(m.value.0) then true
      else Stripped(s[2..m.value.1 - 2]) && Unpadded(s[m.value.1..])
  }

  lemma {:induction false} StripShrinks(w: string)
    ensures |Strip(w)| <= |w|
    ensures |Strip(w)| == |w| <==> Stripped(w)
    ensures Stripped(w) ==> Strip(w) == w
  {
    if Stripped(w) {
      StripFixes(w);
    } else {
      StripIsStripped(w);
      var l := LStrip(w);
      assert |l| == |w| ==> l == w;
      assert |RStrip(l)| == |l| ==> RStrip(l) == l;
    }
  }

  /** What a raw block keeps of a match is never longer than the match, and as long only without padding. */
  lemma {:induction false} PieceShrinks(s: string)
    requires MatchTag(s).Some?
    ensures var (token, n) := MatchTag(s).value;
            && !token.Text?
            && |RawPiece(token)| <= n
            && (|RawPiece(token)| == n <==> Stripped(s[2..n - 2]))
            && (Stripped(s[2..n - 2]) ==> RawPiece(token) == s[..n])
  {
    hide Strip, Stripped;
    var (token, n) := MatchTag(s).value;
    var mark := if s[1] == '{' then '}' else '%';
    FindCloseFinds(s[3..], mark, '}');
    assert FindClose(s[3..], mark, '}') == Some(n - 5);
    var inner := s[2..n - 2];
    StripShrinks(inner);
    assert s[3..][n - 5] == mark && s[3..][n - 4] == '}';
    assert s[n - 2] == mark && s[n - 1] == '}';
    assert s[..n] == [s[0], s[1]] + inner + [mark, '}'];
    assert RawPiece(token) == [s[0], s[1]] + Strip(inner) + [mark, '}'];
  }

  lemma {:induction false} FindCloseFinds(s: string, mark: char, brace: char)
    ensures var r := FindClose(s, mark, brace);
            r.Some? ==> s[r.value] == mark && s[r.value + 1] == brace
  {
    if |s| >= 2 {
      FindCloseFinds(s[1..], mark, brace);
    }
  }

  lemma {:induction false} CollectToken(token: Token, rest: seq<Token>)
    ensures var c := CollectRaw([token] + rest);
            var more := CollectRaw(rest);
            if EndsRaw(token) then c == Some(("", rest))
            else if more.None? then c == None
            else c == Some((RawPiece(token) + more.value.0, more.value.1))
  {
    hide Strip, RawPiece;
    assert ([token] + rest)[1..] == rest;
  }

  lemma {:induction false} CollectFlushed(pending: string, token: Token, rest: seq<Token>)
    ensures var c := CollectRaw(Flush(pending) + [token] + rest);
            var more := CollectRaw(rest);
            if EndsRaw(token) then c == Some((pending, rest))
            else if more.None? then c == None
            else c == Some((pending + RawPiece(token) + more.value.0, more.value.1))
  {
    hide CollectRaw, Strip;
    CollectToken(token, rest);
    var tail := [token] + rest;
    assert Flush(pending) + [token] + rest == Flush(pending) + tail;
    if pending == "" {
      assert Flush(pending) + tail == tail;
      if CollectRaw(tail).Some? {
        assert pending + CollectRaw(tail).value.0 == CollectRaw(tail).value.0;
      }
      assert pending + RawPiece(token) == RawPiece(token);
    } else {
      CollectToken(Text(pending), tail);
      if CollectRaw(rest).Some? {
        assert pending + (RawPiece(token) + CollectRaw(rest).value.0)
            == pending + RawPiece(token) + CollectRaw(rest).value.0;
      }
      assert pending + "" == pending;
    }
  }

  lemma {:induction false} CollectPending(pending: string)
    ensures CollectRaw(Flush(pending)).None?
  {
    assert CollectRaw([]).None?;
    if pending != "" {
      assert [Text(pending)][1..] == [];
    }
  }

  /** The parser's reading of a raw block beside the text of the block. */
  lemma {:induction false} RawReading(s: string, pending: string)
    ensures var raw := CollectRaw(Lex(s, pending));
            var region := RawRegion(s);
            && (raw.Some? <==> region.Some?)
            && (region.Some? ==>
                  && raw.value.1 == Lex(region.value.after, "")
                  && |raw.value.0| <= |pending| + |region.value.body|
                  && (|raw.value.0| == |pending| + |region.value.body| <==> Unpadded(s))
                  && (Unpadded(s) ==> raw.value.0 == pending + region.value.body))
    decreases |s|
  {
    hide MatchTag, EndsRaw, CollectRaw, Stripped, RawPiece;
    if s == "" {
      CollectPending(pending);
    } else {
      var m := MatchTag(s);
      if m.None? {
        RawReading(s[1..], pending + [s[0]]);
        if RawRegion(s).Some? {
          var body := RawRegion(s[1..]).value.body;
          assert pending + [s[0]] + body == pending + (s[..1] + body);
        }
      } else {
        var (token, n) := m.value;
        CollectFlushed(pending, token, Lex(s[n..], ""));
        if !EndsRaw(token) {
          PieceShrinks(s);
          RawReading(s[n..], "");
          if RawRegion(s).Some? && Unpadded(s) {
            var body := RawRegion(s[n..]).value.body;
            assert pending + s[..n] + ("" + body) == pending + (s[..n] + body);
          }
        }
      }
    }
  }

  /**
   Raw blocks are verbatim exactly when no output or tag inside them is padded. For every opening
   raw tag and whatever text follows it: the parser ends the block where the text does, keeps no more
   than the text of the block, and keeps all of it if and only if every output and tag matched in the
   block is free of blanks inside its marks.
   */
  lemma {:induction false} RawIsVerbatimIff(open: string, v: string, s: string)
    requires MatchTag(open + s) == Some((Tag(v), |open|)) && WordOf(v) == WRaw
    ensures var tokens := Lex(open + s, "");
            var region := RawRegion(s);
            && StartsWithTag(tokens)
            && (region.None? ==> ParseTag(tokens) == Err(UnterminatedRaw))
            && (region.Some? ==>
                  var one := ParseTag(tokens);
                  && one.Ok? && one.value.0.RawNode? && one.value.1 == Lex(region.value.after, "")
                  && |one.value.0.text| <= |region.value.body|
                  && (one.value.0.text == region.value.body <==> Unpadded(s)))
  {
    hide MatchTag, CollectRaw, WordOf, RawRegion, Unpadded, Operand, MatchFor;
    var all := open + s;
    var tokens := Lex(all, "");
    assert all[|open|..] == s;
    assert tokens == [Tag(v)] + Lex(s, "");
    assert tokens[1..] == Lex(s, "");
    RawReading(s, "");
    assert forall t: string :: "" + t == t;
  }

  /** A padded output or tag inside a raw block: the blanks inside its marks are gone. */
  lemma {:induction false} RawDropsPadding(token: Token)
    requires SpellableToken(token) && !token.Text? && !EndsRaw(token)
    ensures ParseBlock(Lex(Source([Tag("raw"), token, Tag("endraw")]), ""), TopLevel)
         == Ok(Block([RawNode(RawPiece(token))], []))
    ensures |RawPiece(token)| == |Spell(token)| - 2
  {
    hide MatchTag, Strip, Lex, Head, WordOf, CollectRaw, Operand, MatchFor, SpellableToken;
    BareTags();
    var tokens := [Tag("raw"), token, Tag("endraw")];
    RawTokens(token);
    LexSource(tokens);
    assert tokens[1..] == [token, Tag("endraw")];
    CollectOne(token);
    assert [RawNode(RawPiece(token))] + [] == [RawNode(RawPiece(token))];
  }

  lemma {:induction false} RawTokens(token: Token)
    requires SpellableToken(token) && !token.Text?
    ensures Spellable([Tag("raw"), token, Tag("endraw")])
  {
    hide CloseFree, Stripped;
    PlainWords();
  }

  lemma PlainWords()
    ensures Stripped("raw") && CloseFree("raw", '%') && Stripped("endraw") && CloseFree("endraw", '%')
  {
  }

  lemma {:induction false} CollectOne(token: Token)
    requires !token.Text? && !EndsRaw(token)
    ensures CollectRaw([token, Tag("endraw")]) == Some((RawPiece(token), []))
  {
    hide Strip, WordOf;
    BareTags();
    var tokens := [token, Tag("endraw")];
    assert tokens[1..] == [Tag("endraw")];
    assert CollectRaw([Tag("endraw")]) == Some(("", []));
    assert RawPiece(token) + "" == RawPiece(token);
  }
}
