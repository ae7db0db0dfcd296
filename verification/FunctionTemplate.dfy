/** Templates: literal text with placeholders in braces. */
module FunctionTemplate {

  datatype Segment = Literal(text: string) | Placeholder(name: string)

  datatype Parsed = Segments(segments: seq<Segment>) | Unterminated | EmptyPlaceholder {
    function Prepend(s: seq<Segment>): Parsed {
      if Segments? then Segments(s + segments) else this
    }
  }

  /** The characters that String.Trim and IsNullOrWhiteSpace take for white space. */
  predicate IsWhite(c: char) {
    var n := c as int;
    || 0x09 <= n <= 0x0D || n == 0x20 || n == 0x85 || n == 0xA0 || n == 0x1680
    || 0x2000 <= n <= 0x200A || n == 0x2028 || n == 0x2029 || n == 0x202F || n == 0x205F || n == 0x3000
  }

  function TrimStart(s: string): string {
    if |s| > 0 && IsWhite(s[0]) then TrimStart(s[1..]) else s
  }

  function TrimEnd(s: string): string {
    if |s| > 0 && IsWhite(s[|s| - 1]) then TrimEnd(s[..|s| - 1]) else s
  }

  function Trim(s: string): string {
    TrimEnd(TrimStart(s))
  }

  predicate Blank(s: string) {
    forall i :: 0 <= i < |s| ==> IsWhite(s[i])
  }

  /** What is left of the text without the white space at its two ends. */
  ghost predicate TrimsTo(s: string, name: string) {
    && (exists before, after :: Blank(before) && Blank(after) && s == before + name + after)
    && (name != "" ==> !IsWhite(name[0]) && !IsWhite(name[|name| - 1]))
  }

  lemma {:induction false} TrimStartSkips(before: string, s: string)
    requires Blank(before) && (s != "" ==> !IsWhite(s[0]))
    ensures TrimStart(before + s) == s
  {
    hide IsWhite;
    if |before| == 0 {
      assert before + s == s;
    } else {
      assert (before + s)[1..] == before[1..] + s;
      TrimStartSkips(before[1..], s);
    }
  }

  lemma {:induction false} TrimEndSkips(s: string, after: string)
    requires Blank(after) && (s != "" ==> !IsWhite(s[|s| - 1]))
    ensures TrimEnd(s + after) == s
  {
    hide IsWhite;
    if |after| == 0 {
      assert s + after == s;
    } else {
      var u := s + after;
      assert u[..|u| - 1] == s + after[..|after| - 1] && u[|u| - 1] == after[|after| - 1];
      TrimEndSkips(s, after[..|after| - 1]);
    }
  }

  /** Trimming takes the white space off both ends, all of it and nothing else. */
  lemma {:induction false} TrimIsTrimmed(s: string, name: string)
    ensures Trim(s) == name <==> TrimsTo(s, name)
  {
    if TrimsTo(s, name) {
      var before, after :| Blank(before) && Blank(after) && s == before + name + after;
      hide IsWhite;
      if name == "" {
        assert s == (before + after) + "";
        TrimStartSkips(before + after, "");
      } else {
        assert s == before + (name + after);
        TrimStartSkips(before, name + after);
        TrimEndSkips(name, after);
      }
    }
    var start, end := Ends(s);
    hide IsWhite, Trim;
    assert TrimsTo(s, Trim(s)) by {
      assert s == start + Trim(s) + end;
    }
  }

  lemma TrimStep(s: string)
    ensures |s| > 0 && IsWhite(s[0]) ==> Trim(s) == Trim(s[1..])
    ensures |s| > 0 && !IsWhite(s[0]) && IsWhite(s[|s| - 1]) ==> Trim(s) == Trim(s[..|s| - 1])
    ensures (|s| > 0 ==> !IsWhite(s[0]) && !IsWhite(s[|s| - 1])) ==> Trim(s) == s
  {
    if |s| > 0 && !IsWhite(s[0]) {
      var u := s[..|s| - 1];
      assert u != "" ==> u[0] == s[0];
      hide IsWhite;
    }
  }

  lemma MoreBefore(c: char, before: string, name: string, after: string)
    requires IsWhite(c) && Blank(before)
    ensures Blank([c] + before) && [c] + (before + name + after) == [c] + before + name + after
  {
    hide IsWhite;
  }

  lemma MoreAfter(before: string, name: string, after: string, c: char)
    requires IsWhite(c) && Blank(after)
    ensures Blank(after + [c]) && before + name + after + [c] == before + name + (after + [c])
  {
    hide IsWhite;
  }

  lemma {:induction false} Ends(s: string) returns (before: string, after: string)
    ensures s == before + Trim(s) + after && Blank(before) && Blank(after)
    ensures Trim(s) != "" ==> !IsWhite(Trim(s)[0]) && !IsWhite(Trim(s)[|Trim(s)| - 1])
    decreases |s|
  {
    TrimStep(s);
    if |s| > 0 && IsWhite(s[0]) {
      before, after := Ends(s[1..]);
      hide IsWhite, Trim, Blank;
      MoreBefore(s[0], before, Trim(s), after);
      assert s == [s[0]] + s[1..];
      before := [s[0]] + before;
    } else if |s| > 0 && IsWhite(s[|s| - 1]) {
      before, after := Ends(s[..|s| - 1]);
      hide IsWhite, Trim, Blank;
      MoreAfter(before, Trim(s), after, s[|s| - 1]);
      assert s == s[..|s| - 1] + [s[|s| - 1]];
      after := after + [s[|s| - 1]];
    } else {
      before, after := "", "";
      hide IsWhite, Trim;
      assert s == "" + s + "";
    }
  }

  /** The position of the first '}' at or after `from`, or the length when there is none. */
  function CloseFrom(t: string, from: nat): (close: nat)
    requires from <= |t|
    ensures from <= close <= |t|
    ensures close < |t| ==> t[close] == '}'
    ensures forall i :: from <= i < close ==> t[i] != '}'
    decreases |t| - from
  {
    if from == |t| || t[from] == '}' then from else CloseFrom(t, from + 1)
  }

  function Flush(literal: string): seq<Segment> {
    if |literal| > 0 then [Literal(literal)] else []
  }

  /** What the parser makes of the template from `index` on, with a literal begun. */
  function ParseFrom(t: string, index: nat, literal: string): Parsed
    requires index <= |t|
    decreases |t| - index
  {
    if index == |t| then Segments(Flush(literal))
    else if t[index] == '{' then
      var close := CloseFrom(t, index + 1);
      if close == |t| then Unterminated
      else
        var name := Trim(t[index + 1..close]);
        if |name| == 0 then EmptyPlaceholder
        else ParseFrom(t, close + 1, "").Prepend(Flush(literal) + [Placeholder(name)])
    else
      ParseFrom(t, index + 1, literal + [t[index]])
  }

  method Parse(t: string) returns (r: Parsed)
    ensures r == ParseFrom(t, 0, "")
  {
    var segments: seq<Segment> := [];
    var literal := "";
    var index := 0;
    while index < |t|
      invariant 0 <= index <= |t|
      invariant ParseFrom(t, 0, "") == ParseFrom(t, index, literal).Prepend(segments)
      decreases |t| - index
    {
      if t[index] == '{' {
        var close := CloseFrom(t, index + 1);
        if close == |t| {
          return Unterminated;
        }
        var name := Trim(t[index + 1..close]);
        if |name| == 0 {
          return EmptyPlaceholder;
        }
        var step := Flush(literal) + [Placeholder(name)];
        PrependTwice(ParseFrom(t, close + 1, ""), segments, step);
        segments := segments + step;
        literal := "";
        index := close + 1;
      } else {
        literal := literal + [t[index]];
        index := index + 1;
      }
    }
    r := Segments(segments + Flush(literal));
  }

  lemma PrependTwice(p: Parsed, a: seq<Segment>, b: seq<Segment>)
    ensures p.Prepend(b).Prepend(a) == p.Prepend(a + b)
  {
    if p.Segments? {
      assert a + (b + p.segments) == (a + b) + p.segments;
    }
  }

  // ---- What a parse means

  /** A spelling of segments: literals as they stand, each placeholder as some text between
      braces that trims to its name. */
  ghost predicate Spells(t: string, segments: seq<Segment>) {
    if |segments| == 0 then t == ""
    else
      match segments[0]
      case Literal(text) =>
        |text| <= |t| && t[..|text|] == text && Spells(t[|text|..], segments[1..])
      case Placeholder(name) =>
        exists close :: 1 <= close < |t| && t[0] == '{' && t[close] == '}'
                        && '}' !in t[1..close] && Trim(t[1..close]) == name
                        && Spells(t[close + 1..], segments[1..])
  }

  /** Literals are never empty, never adjacent and hold no '{'; placeholders have a name. */
  predicate Regular(segments: seq<Segment>) {
    |segments| > 0 ==>
      && (match segments[0]
          case Literal(text) => text != "" && '{' !in text && (|segments| > 1 ==> segments[1].Placeholder?)
          case Placeholder(name) => name != "")
      && Regular(segments[1..])
  }

  lemma SpellsPlaceholder(u: string, close: nat, rest: seq<Segment>)
    requires 1 <= close < |u| && u[0] == '{' && u[close] == '}' && '}' !in u[1..close]
    requires Spells(u[close + 1..], rest)
    ensures Spells(u, [Placeholder(Trim(u[1..close]))] + rest)
  {
    hide Trim;
    assert ([Placeholder(Trim(u[1..close]))] + rest)[1..] == rest;
  }

  lemma SpellsFlushed(literal: string, u: string, rest: seq<Segment>)
    requires Spells(u, rest)
    ensures Spells(literal + u, Flush(literal) + rest)
  {
    hide Trim;
    if |literal| == 0 {
      assert literal + u == u && Flush(literal) + rest == rest;
    } else {
      assert (Flush(literal) + rest)[1..] == rest && (literal + u)[|literal|..] == u;
    }
  }

  lemma RegularFlushed(literal: string, rest: seq<Segment>)
    requires Regular(rest) && '{' !in literal
    requires |rest| > 0 ==> rest[0].Placeholder?
    ensures Regular(Flush(literal) + rest)
  {
    if |literal| == 0 {
      assert Flush(literal) + rest == rest;
    } else {
      assert (Flush(literal) + rest)[1..] == rest;
    }
  }

  /** A template that parses is spelled by its segments: nothing of it is lost but the
      white space inside braces. */
  lemma {:induction false} ParsedIsSpelled(t: string, index: nat, literal: string)
    requires index <= |t| && '{' !in literal && ParseFrom(t, index, literal).Segments?
    ensures var segments := ParseFrom(t, index, literal).segments;
            Spells(literal + t[index..], segments) && Regular(segments)
    decreases |t| - index
  {
    hide Trim, Spells, Regular, Flush;
    if index == |t| {
      SpelledNothing();
      SpellsFlushed(literal, "", []);
      RegularFlushed(literal, []);
      assert Flush(literal) + [] == Flush(literal) && t[index..] == "";
    } else if t[index] == '{' {
      var close := CloseFrom(t, index + 1);
      ParsedIsSpelled(t, close + 1, "");
      ParsedPlaceholder(t, index, close, literal, ParseFrom(t, close + 1, "").segments);
    } else {
      ParsedIsSpelled(t, index + 1, literal + [t[index]]);
      assert literal + t[index..] == literal + [t[index]] + t[index + 1..];
    }
  }

  lemma SpelledNothing()
    ensures Spells("", []) && Regular([])
  {
  }

  lemma ParsedPlaceholder(t: string, index: nat, close: nat, literal: string, rest: seq<Segment>)
    requires index < close < |t| && t[index] == '{' && t[close] == '}' && '{' !in literal
    requires forall i :: index + 1 <= i < close ==> t[i] != '}'
    requires Trim(t[index + 1..close]) != "" && Spells("" + t[close + 1..], rest) && Regular(rest)
    ensures var all := Flush(literal) + [Placeholder(Trim(t[index + 1..close]))] + rest;
            Spells(literal + t[index..], all) && Regular(all)
  {
    hide Trim, Spells, Flush;
    var u, k := t[index..], close - index;
    assert u[1..k] == t[index + 1..close] && u[k + 1..] == t[close + 1..] && u[k] == '}';
    assert "" + t[close + 1..] == t[close + 1..];
    SpellsPlaceholder(u, k, rest);
    var here := [Placeholder(Trim(t[index + 1..close]))] + rest;
    assert here[1..] == rest;
    SpellsFlushed(literal, u, here);
    RegularFlushed(literal, here);
    assert Flush(literal) + here == Flush(literal) + [here[0]] + rest;
  }

  lemma SpelledIsNonEmpty(t: string, a: seq<Segment>)
    requires Spells(t, a) && Regular(a)
    ensures |t| > 0 <==> |a| > 0
    ensures |a| > 0 ==> (a[0].Placeholder? <==> t[0] == '{')
  {
    hide Trim;
  }

  lemma NotInSlice(t: string, c: char, from: nat, end: nat)
    requires from <= end <= |t| && c !in t[from..end]
    ensures forall q :: from <= q < end ==> t[q] != c
  {
    forall q | from <= q < end ensures t[q] != c {
      assert t[q] == t[from..end][q - from];
    }
  }

  lemma {:induction false} SkipLiteral(t: string, from: nat, end: nat, literal: string)
    requires from <= end <= |t| && '{' !in t[from..end]
    ensures ParseFrom(t, from, literal) == ParseFrom(t, end, literal + t[from..end])
    decreases end - from
  {
    hide Trim;
    if from == end {
      assert literal + t[from..end] == literal;
    } else {
      NotInSlice(t, '{', from, end);
      assert t[from + 1..end] == t[from..end][1..];
      SkipLiteral(t, from + 1, end, literal + [t[from]]);
      assert literal + t[from..end] == literal + [t[from]] + t[from + 1..end];
    }
  }

  lemma FlushAtBrace(t: string, index: nat, literal: string)
    requires index <= |t| && (index < |t| ==> t[index] == '{')
    ensures ParseFrom(t, index, literal) == ParseFrom(t, index, "").Prepend(Flush(literal))
  {
    hide Trim;
    if index < |t| {
      var close := CloseFrom(t, index + 1);
      if close < |t| {
        var step := [Placeholder(Trim(t[index + 1..close]))];
        assert Flush("") + step == step;
        PrependTwice(ParseFrom(t, close + 1, ""), Flush(literal), step);
      }
    }
  }

  lemma CloseIsFirst(t: string, from: nat, close: nat)
    requires from <= close < |t| && t[close] == '}' && '}' !in t[from..close]
    ensures CloseFrom(t, from) == close
  {
    NotInSlice(t, '}', from, close);
  }

  lemma ReadingOfPlaceholder(t: string, index: nat, a: seq<Segment>) returns (close: nat)
    requires index <= |t| && Spells(t[index..], a) && |a| > 0 && a[0].Placeholder?
    ensures index < |t| && t[index] == '{' && close == CloseFrom(t, index + 1) < |t|
    ensures Trim(t[index + 1..close]) == a[0].name && Spells(t[close + 1..], a[1..])
  {
    hide Trim, Spells;
    var k: nat;
    k, close := CloseOfPlaceholder(t, index, a);
    assert t[index..][1..k] == t[index + 1..close] && t[index..][k + 1..] == t[close + 1..];
    CloseIsFirst(t, index + 1, close);
  }

  lemma CloseOfPlaceholder(t: string, index: nat, a: seq<Segment>) returns (k: nat, close: nat)
    requires index <= |t| && Spells(t[index..], a) && |a| > 0 && a[0].Placeholder?
    ensures 1 <= k < |t[index..]| && close == index + k && t[index] == '{' && t[close] == '}'
    ensures var u := t[index..]; '}' !in u[1..k] && Trim(u[1..k]) == a[0].name && Spells(u[k + 1..], a[1..])
  {
    hide Trim;
    var u := t[index..];
    k :| 1 <= k < |u| && u[0] == '{' && u[k] == '}' && '}' !in u[1..k] && Trim(u[1..k]) == a[0].name
         && Spells(u[k + 1..], a[1..]);
    close := index + k;
  }

  lemma ReadingOfLiteral(t: string, index: nat, a: seq<Segment>) returns (next: nat)
    requires index <= |t| && Spells(t[index..], a) && Regular(a) && |a| > 0 && a[0].Literal?
    ensures index < next <= |t| && a[0].text == t[index..next] && '{' !in t[index..next]
    ensures next < |t| ==> t[next] == '{'
    ensures Spells(t[next..], a[1..])
  {
    hide Trim;
    next := index + |a[0].text|;
    assert t[index..][|a[0].text|..] == t[next..] && t[index..next] == t[index..][..|a[0].text|];
    SpelledIsNonEmpty(t[next..], a[1..]);
    if next < |t| {
      assert t[next..][0] == t[next];
    }
  }

  lemma RegularTail(a: seq<Segment>)
    requires Regular(a) && |a| > 0
    ensures Regular(a[1..]) && (a[0].Literal? ==> a[0].text != "") && (a[0].Placeholder? ==> a[0].name != "")
  {
  }

  lemma PlaceholderIsParsed(t: string, index: nat, close: nat, name: string, rest: seq<Segment>)
    requires index < |t| && t[index] == '{' && close == CloseFrom(t, index + 1) < |t|
    requires Trim(t[index + 1..close]) == name && name != "" && ParseFrom(t, close + 1, "") == Segments(rest)
    ensures ParseFrom(t, index, "") == Segments([Placeholder(name)] + rest)
  {
    hide Trim;
    assert Flush("") + [Placeholder(name)] == [Placeholder(name)];
  }

  lemma LiteralIsParsed(t: string, index: nat, next: nat, rest: seq<Segment>)
    requires index < next <= |t| && '{' !in t[index..next] && (next < |t| ==> t[next] == '{')
    requires ParseFrom(t, next, "") == Segments(rest)
    ensures ParseFrom(t, index, "") == Segments([Literal(t[index..next])] + rest)
  {
    hide Trim, ParseFrom, CloseFrom;
    SkipLiteral(t, index, next, "");
    assert "" + t[index..next] == t[index..next];
    FlushAtBrace(t, next, t[index..next]);
  }

  /** A template with a regular reading is parsed into it. */
  lemma {:induction false} ReadingIsParsed(t: string, index: nat, a: seq<Segment>)
    requires index <= |t| && Spells(t[index..], a) && Regular(a)
    ensures ParseFrom(t, index, "") == Segments(a)
    decreases |t| - index
  {
    hide Trim, Spells, Regular, CloseFrom;
    SpelledIsNonEmpty(t[index..], a);
    if |a| > 0 {
      hide ParseFrom;
      RegularTail(a);
      assert a == [a[0]] + a[1..];
      if a[0].Placeholder? {
        var close := ReadingOfPlaceholder(t, index, a);
        ReadingIsParsed(t, close + 1, a[1..]);
        PlaceholderIsParsed(t, index, close, a[0].name, a[1..]);
      } else {
        var next := ReadingOfLiteral(t, index, a);
        ReadingIsParsed(t, next, a[1..]);
        LiteralIsParsed(t, index, next, a[1..]);
      }
    }
  }

  /** Parsing succeeds exactly on the templates with a regular reading, and returns it; so
      a template has at most one. */
  lemma ParseIsTheReading(t: string, a: seq<Segment>)
    ensures ParseFrom(t, 0, "") == Segments(a) <==> Spells(t, a) && Regular(a)
  {
    hide Trim, Spells, Regular;
    assert "" + t[0..] == t && t[0..] == t;
    if ParseFrom(t, 0, "") == Segments(a) {
      ParsedIsSpelled(t, 0, "");
    }
    if Spells(t, a) && Regular(a) {
      ReadingIsParsed(t, 0, a);
    }
  }
}
