/** SQLite's `?` parameters turned into PostgreSQL's `$k`, outside quotes and comments. */
module SqlPlaceholders {
  import opened Text

  /** What the translation looks at in a parameter value. */
  datatype Param = WholeNumber | FractionalNumber | BigInteger | OtherValue

  datatype Region = Normal | SingleQuote | DoubleQuote | LineComment | BlockComment

  /** The parameter of the k-th placeholder, counted from one; a missing one is no number. */
  function ParamAt(params: seq<Param>, k: nat): Param {
    if 1 <= k <= |params| then params[k - 1] else OtherValue
  }

  function Placeholder(k: nat, p: Param): string {
    match p
    case WholeNumber => "CAST($" + Decimal(k) + " AS BIGINT)"
    case BigInteger => "CAST($" + Decimal(k) + " AS BIGINT)"
    case FractionalNumber => "CAST($" + Decimal(k) + " AS DOUBLE PRECISION)"
    case OtherValue => "$" + Decimal(k)
  }

  // ---- Lexing, as SQL means it

  /** Two characters that are read as one where they stand. */
  predicate Pair(r: Region, a: char, b: char) {
    match r
    case Normal => (a == '-' && b == '-') || (a == '/' && b == '*')
    case SingleQuote => a == '\'' && b == '\''
    case DoubleQuote => a == '"' && b == '"'
    case LineComment => false
    case BlockComment => a == '*' && b == '/'
  }

  function AfterPair(r: Region, a: char): Region {
    match r
    case Normal => if a == '-' then LineComment else BlockComment
    case BlockComment => Normal
    case _ => r
  }

  function AfterChar(r: Region, a: char): Region {
    match r
    case Normal => if a == '\'' then SingleQuote else if a == '"' then DoubleQuote else Normal
    case SingleQuote => if a == '\'' then Normal else SingleQuote
    case DoubleQuote => if a == '"' then Normal else DoubleQuote
    case LineComment => if a == '\n' then Normal else LineComment
    case BlockComment => BlockComment
  }

  datatype Piece = Copied(text: string) | Hole

  /** The text in pieces: the holes are the question marks outside quotes and comments. */
  function Pieces(s: string, r: Region): seq<Piece> {
    if |s| == 0 then []
    else if |s| > 1 && Pair(r, s[0], s[1]) then [Copied(s[..2])] + Pieces(s[2..], AfterPair(r, s[0]))
    else if r == Normal && s[0] == '?' then [Hole] + Pieces(s[1..], r)
    else [Copied([s[0]])] + Pieces(s[1..], AfterChar(r, s[0]))
  }

  /** The region in which the text ends. */
  function EndRegion(s: string, r: Region): Region {
    if |s| == 0 then r
    else if |s| > 1 && Pair(r, s[0], s[1]) then EndRegion(s[2..], AfterPair(r, s[0]))
    else EndRegion(s[1..], AfterChar(r, s[0]))
  }

  /** The pieces with question marks in the holes again. */
  function Unfilled(pieces: seq<Piece>): string {
    if |pieces| == 0 then ""
    else (if pieces[0].Hole? then "?" else pieces[0].text) + Unfilled(pieces[1..])
  }

  /** The pieces with numbered placeholders in the holes, from k on. */
  function Filled(pieces: seq<Piece>, k: nat, params: seq<Param>): string {
    if |pieces| == 0 then ""
    else
      match pieces[0]
      case Copied(text) => text + Filled(pieces[1..], k, params)
      case Hole => Placeholder(k, ParamAt(params, k)) + Filled(pieces[1..], k + 1, params)
  }

  function Translated(s: string, r: Region, k: nat, params: seq<Param>): string {
    Filled(Pieces(s, r), k, params)
  }

  method ReplaceSqlitePlaceholders(sql: string, params: seq<Param>)
    returns (result: string, ghost lexemes: seq<Lexeme>, ghost texts: seq<string>)
    ensures result == Translated(sql, Normal, 1, params)
    ensures WellWritten(lexemes) && Written(lexemes) == sql
    ensures |texts| == Questions(lexemes) && NumberedFrom(texts, 1, params)
    ensures result == Rendered(lexemes, texts)
  {
    hide Pair, AfterPair, AfterChar, Placeholder, WellWritten, NumberedFrom, Written, Rendered, Questions, Pieces, Filled;
    lexemes := EveryTextIsWritten(sql);
    texts := LexemesAreRendered(lexemes, 1, params);
    var parameterIndex := 0;
    var state := Normal;
    result := "";
    var index := 0;
    assert sql[0..] == sql;
    while index < |sql|
      invariant 0 <= index <= |sql|
      invariant result + Translated(sql[index..], state, parameterIndex + 1, params) == Translated(sql, Normal, 1, params)
      decreases |sql| - index
    {
      var current := sql[index];
      var pair := index + 1 < |sql| && ReadsPair(state, current, sql[index + 1]);
      TranslatedStep(sql, index, state, parameterIndex + 1, params);
      if pair {
        result := result + [current, sql[index + 1]];
        index := index + 2;
        state := AfterPair(state, current);
      } else if state == Normal && current == '?' {
        parameterIndex := parameterIndex + 1;
        result := result + Placeholder(parameterIndex, ParamAt(params, parameterIndex));
        index := index + 1;
      } else {
        result := result + [current];
        index := index + 1;
        state := AfterChar(state, current);
      }
    }
    NothingLeft(state, parameterIndex + 1, params);
    assert sql[index..] == "" && result + "" == result;
  }

  /** The nested conditions under which the loop takes two characters at once. */
  predicate ReadsPair(state: Region, current: char, next: char)
    ensures ReadsPair(state, current, next) <==> Pair(state, current, next)
  {
    if state == LineComment then false
    else if state == BlockComment then current == '*' && next == '/'
    else if state == SingleQuote then current == '\'' && next == '\''
    else if state == DoubleQuote then current == '"' && next == '"'
    else if current == '-' && next == '-' then true
    else current == '/' && next == '*'
  }

  lemma TranslatedStep(s: string, i: nat, r: Region, k: nat, params: seq<Param>)
    requires i < |s|
    ensures i + 1 < |s| && Pair(r, s[i], s[i + 1]) ==>
              Translated(s[i..], r, k, params) == [s[i], s[i + 1]] + Translated(s[i + 2..], AfterPair(r, s[i]), k, params)
    ensures !(i + 1 < |s| && Pair(r, s[i], s[i + 1])) && r == Normal && s[i] == '?' ==>
              Translated(s[i..], r, k, params) == Placeholder(k, ParamAt(params, k)) + Translated(s[i + 1..], r, k + 1, params)
    ensures !(i + 1 < |s| && Pair(r, s[i], s[i + 1])) && !(r == Normal && s[i] == '?') ==>
              Translated(s[i..], r, k, params) == [s[i]] + Translated(s[i + 1..], AfterChar(r, s[i]), k, params)
  {
    hide Pair, AfterPair, AfterChar, Placeholder;
    assert s[i..][0] == s[i] && s[i..][1..] == s[i + 1..];
    if i + 1 < |s| {
      assert s[i..][1] == s[i + 1] && s[i..][..2] == [s[i], s[i + 1]] && s[i..][2..] == s[i + 2..];
    }
  }

  // ---- Everything else is copied

  /** Nothing but the holes is changed: with question marks in them, the text is as before. */
  lemma {:induction false} UnfilledIsTheText(s: string, r: Region)
    ensures Unfilled(Pieces(s, r)) == s
  {
    hide Pair, AfterPair, AfterChar;
    if |s| == 0 {
    } else if |s| > 1 && Pair(r, s[0], s[1]) {
      UnfilledIsTheText(s[2..], AfterPair(r, s[0]));
      assert s == s[..2] + s[2..];
    } else if r == Normal && s[0] == '?' {
      UnfilledIsTheText(s[1..], r);
      assert s == [s[0]] + s[1..];
    } else {
      UnfilledIsTheText(s[1..], AfterChar(r, s[0]));
      assert s == [s[0]] + s[1..];
    }
  }

  // ---- The translation reads like the text

  /** Neither a quote, nor part of a comment mark, nor a hole. */
  predicate Harmless(c: char) {
    c != '\'' && c != '"' && c != '-' && c != '/' && c != '*' && c != '?' && c != '\n'
  }

  predicate AllHarmless(t: string) {
    forall i :: 0 <= i < |t| ==> Harmless(t[i])
  }

  lemma HarmlessTogether(a: string, b: string, c: string)
    requires AllHarmless(a) && AllHarmless(b) && AllHarmless(c)
    ensures AllHarmless(a + b + c)
  {
    hide Harmless;
  }

  lemma NumeralIsHarmless(k: nat)
    ensures AllHarmless(Decimal(k))
  {
    hide Decimal;
  }

  lemma PlaceholderIsHarmless(k: nat, p: Param)
    ensures |Placeholder(k, p)| > 0 && AllHarmless(Placeholder(k, p))
  {
    NumeralIsHarmless(k);
    assert AllHarmless("CAST($") && AllHarmless("$") && AllHarmless("");
    assert AllHarmless(" AS BIGINT)") && AllHarmless(" AS DOUBLE PRECISION)");
    hide Decimal, AllHarmless;
    HarmlessTogether("CAST($", Decimal(k), " AS BIGINT)");
    HarmlessTogether("CAST($", Decimal(k), " AS DOUBLE PRECISION)");
    HarmlessTogether("$", Decimal(k), "");
    assert "$" + Decimal(k) + "" == "$" + Decimal(k);
  }

  /** A text read one character at a time. */
  function Spelled(t: string): seq<Piece> {
    if |t| == 0 then [] else [Copied([t[0]])] + Spelled(t[1..])
  }

  /** The pieces with every hole replaced by the characters of its placeholder, numbered from k on. */
  function Replaced(pieces: seq<Piece>, k: nat, params: seq<Param>): seq<Piece> {
    if |pieces| == 0 then []
    else
      match pieces[0]
      case Copied(_) => [pieces[0]] + Replaced(pieces[1..], k, params)
      case Hole => Spelled(Placeholder(k, ParamAt(params, k))) + Replaced(pieces[1..], k + 1, params)
  }

  lemma HarmlessStep(u: string)
    requires |u| > 0 && Harmless(u[0])
    ensures Pieces(u, Normal) == [Copied([u[0]])] + Pieces(u[1..], Normal)
    ensures EndRegion(u, Normal) == EndRegion(u[1..], Normal)
  {
  }

  lemma {:induction false} HarmlessIsSpelled(t: string, rest: string)
    requires AllHarmless(t)
    ensures Pieces(t + rest, Normal) == Spelled(t) + Pieces(rest, Normal)
    ensures EndRegion(t + rest, Normal) == EndRegion(rest, Normal)
  {
    if |t| == 0 {
      assert t + rest == rest;
    } else {
      var u := t + rest;
      assert u[0] == t[0] && u[1..] == t[1..] + rest;
      assert Harmless(t[0]) && AllHarmless(t[1..]);
      HarmlessStep(u);
      HarmlessIsSpelled(t[1..], rest);
      hide Pieces, EndRegion, Harmless;
    }
  }

  /** The translation of a text begins as the text does, or with a placeholder. */
  lemma FirstOfTranslated(s: string, r: Region, k: nat, params: seq<Param>)
    ensures |s| == 0 <==> |Translated(s, r, k, params)| == 0
    ensures |s| > 0 ==> var t := Translated(s, r, k, params);
                        t[0] == s[0] || (s[0] == '?' && Harmless(t[0]))
  {
    if |s| > 0 {
      PlaceholderIsHarmless(k, ParamAt(params, k));
      TranslatedStep(s, 0, r, k, params);
      assert s[0..] == s;
      hide Placeholder, Translated, AfterPair, AfterChar;
    }
  }

  /** The second character of a pair is none that a placeholder begins with, nor `?`. */
  lemma PairSeconds(r: Region, a: char, b: char)
    ensures Pair(r, a, b) ==> !Harmless(b) && b != '?'
  {
  }

  lemma NoNewPair(s: string, t: string, r: Region)
    requires |s| > 0 && |t| > 0 && s[0] == t[0] && !(|s| > 1 && Pair(r, s[0], s[1]))
    requires |s[1..]| == 0 <==> |t[1..]| == 0
    requires |s| > 1 ==> t[1] == s[1] || (s[1] == '?' && Harmless(t[1]))
    ensures !(|t| > 1 && Pair(r, t[0], t[1]))
  {
    if |t| > 1 {
      PairSeconds(r, t[0], t[1]);
    }
  }

  /** The translated text has the pieces of the original, in the same regions, but for the
      holes: each has become the characters of its placeholder, copied one by one. */
  lemma {:induction false} TranslationKeepsPieces(s: string, r: Region, k: nat, params: seq<Param>)
    ensures var t := Translated(s, r, k, params);
            Pieces(t, r) == Replaced(Pieces(s, r), k, params) && EndRegion(t, r) == EndRegion(s, r)
    decreases |s|
  {
    hide Placeholder, AfterPair, AfterChar, Pair, Harmless;
    var t := Translated(s, r, k, params);
    if |s| > 0 {
      assert s[0..] == s;
      TranslatedStep(s, 0, r, k, params);
      if |s| > 1 && Pair(r, s[0], s[1]) {
        var r' := AfterPair(r, s[0]);
        TranslationKeepsPieces(s[2..], r', k, params);
        assert t[2..] == Translated(s[2..], r', k, params) && t[..2] == s[..2];
      } else if r == Normal && s[0] == '?' {
        TranslationKeepsPieces(s[1..], r, k + 1, params);
        PlaceholderIsHarmless(k, ParamAt(params, k));
        HarmlessIsSpelled(Placeholder(k, ParamAt(params, k)), Translated(s[1..], r, k + 1, params));
        HoleEnds(s);
      } else {
        var r' := AfterChar(r, s[0]);
        TranslationKeepsPieces(s[1..], r', k, params);
        assert t[1..] == Translated(s[1..], r', k, params) && t[..1] == [s[0]];
        FirstOfTranslated(s[1..], r', k, params);
        NoNewPair(s, t, r);
      }
    }
  }

  lemma HoleEnds(s: string)
    requires |s| > 0 && s[0] == '?'
    ensures EndRegion(s, Normal) == EndRegion(s[1..], Normal)
  {
  }

  lemma {:induction false} SpelledIsFilled(t: string, rest: seq<Piece>, j: nat, others: seq<Param>)
    ensures Filled(Spelled(t) + rest, j, others) == t + Filled(rest, j, others)
  {
    hide Placeholder, ParamAt, Filled;
    if |t| == 0 {
      assert Spelled(t) + rest == rest;
    } else {
      var more := Spelled(t[1..]) + rest;
      FilledCopied([t[0]], more, j, others);
      SpelledIsFilled(t[1..], rest, j, others);
      Regrouped([Copied([t[0]])], Spelled(t[1..]), rest);
      Regrouped([t[0]], t[1..], Filled(rest, j, others));
      assert t == [t[0]] + t[1..];
    }
  }

  lemma Regrouped<T>(a: seq<T>, b: seq<T>, c: seq<T>)
    ensures a + b + c == a + (b + c)
  {
  }

  lemma FilledCopied(text: string, more: seq<Piece>, j: nat, others: seq<Param>)
    ensures Filled([Copied(text)] + more, j, others) == text + Filled(more, j, others)
  {
    hide Placeholder, ParamAt;
    assert ([Copied(text)] + more)[1..] == more;
  }

  lemma {:induction false} ReplacedIsFilled(pieces: seq<Piece>, k: nat, params: seq<Param>, j: nat, others: seq<Param>)
    ensures Filled(Replaced(pieces, k, params), j, others) == Filled(pieces, k, params)
  {
    hide Placeholder;
    if |pieces| > 0 {
      match pieces[0]
      case Copied(_) =>
        ReplacedIsFilled(pieces[1..], k, params, j, others);
        assert Replaced(pieces, k, params)[1..] == Replaced(pieces[1..], k, params);
      case Hole =>
        ReplacedIsFilled(pieces[1..], k + 1, params, j, others);
        SpelledIsFilled(Placeholder(k, ParamAt(params, k)), Replaced(pieces[1..], k + 1, params), j, others);
    }
  }

  /** Translating again, with whatever parameters, changes nothing. */
  lemma TranslationIsStable(s: string, r: Region, k: nat, params: seq<Param>, j: nat, others: seq<Param>)
    ensures var t := Translated(s, r, k, params); Translated(t, r, j, others) == t
  {
    TranslationKeepsPieces(s, r, k, params);
    ReplacedIsFilled(Pieces(s, r), k, params, j, others);
  }

  // ---- The same text by SQL's own grammar

  /** One lexeme of a SQL text. A quotation or comment that the text does not close is open. */
  datatype Lexeme =
    | Plain(c: char)
    | Question
    | Quoted(mark: char, body: string, closed: bool)
    | LineNote(body: string, closed: bool)
    | BlockNote(body: string, closed: bool)

  /** A quoted text is written with its quotation marks doubled. */
  function Doubled(mark: char, body: string): string {
    if |body| == 0 then "" else (if body[0] == mark then [mark, mark] else [body[0]]) + Doubled(mark, body[1..])
  }

  function TextOf(l: Lexeme): string {
    match l
    case Plain(c) => [c]
    case Question => "?"
    case Quoted(mark, body, closed) => [mark] + (Doubled(mark, body) + if closed then [mark] else "")
    case LineNote(body, closed) => "--" + (body + if closed then "\n" else "")
    case BlockNote(body, closed) => "/*" + (body + if closed then "*/" else "")
  }

  function Written(lexemes: seq<Lexeme>): string {
    if |lexemes| == 0 then "" else TextOf(lexemes[0]) + Written(lexemes[1..])
  }

  ghost predicate StartsWith(s: string, c: char) {
    |s| > 0 && s[0] == c
  }

  /** The lexeme does not hold the end of its kind before its end, and does not run into the
      text behind it; only the last may be open. */
  ghost predicate StandsBefore(l: Lexeme, behind: string) {
    match l
    case Plain(c) =>
      c != '\'' && c != '"' && c != '?' && !(c == '-' && StartsWith(behind, '-')) && !(c == '/' && StartsWith(behind, '*'))
    case Question => true
    case Quoted(mark, body, closed) =>
      (mark == '\'' || mark == '"') && if closed then !StartsWith(behind, mark) else behind == ""
    case LineNote(body, closed) => '\n' !in body && (!closed ==> behind == "")
    case BlockNote(body, closed) => NoBlockEnd(body) && (!closed ==> behind == "")
  }

  ghost predicate WellWritten(lexemes: seq<Lexeme>) {
    |lexemes| > 0 ==> StandsBefore(lexemes[0], Written(lexemes[1..])) && WellWritten(lexemes[1..])
  }

  ghost predicate NoBlockEnd(body: string) {
    forall i :: 0 <= i < |body| - 1 ==> !(body[i] == '*' && body[i + 1] == '/')
  }

  /** The text with the given texts for its question marks. */
  function Rendered(lexemes: seq<Lexeme>, texts: seq<string>): string {
    if |lexemes| == 0 then ""
    else if lexemes[0].Question? && |texts| > 0 then texts[0] + Rendered(lexemes[1..], texts[1..])
    else TextOf(lexemes[0]) + Rendered(lexemes[1..], texts)
  }

  function Questions(lexemes: seq<Lexeme>): nat {
    if |lexemes| == 0 then 0 else (if lexemes[0].Question? then 1 else 0) + Questions(lexemes[1..])
  }

  /** PostgreSQL's parameter k, cast by the kind of the value. */
  ghost predicate Numbered(text: string, k: nat, p: Param) {
    exists digits ::
      && IsNumeral(digits, k)
      && (p == WholeNumber || p == BigInteger ==> text == "CAST($" + digits + " AS BIGINT)")
      && (p == FractionalNumber ==> text == "CAST($" + digits + " AS DOUBLE PRECISION)")
      && (p == OtherValue ==> text == "$" + digits)
  }

  /** The texts are those of the parameters from k on; a missing parameter is no number. */
  ghost predicate NumberedFrom(texts: seq<string>, k: nat, params: seq<Param>) {
    forall j :: 0 <= j < |texts| ==> Numbered(texts[j], k + j, if 1 <= k + j <= |params| then params[k + j - 1] else OtherValue)
  }

  lemma PlaceholderIsNumbered(k: nat, params: seq<Param>)
    ensures Numbered(Placeholder(k, ParamAt(params, k)), k, if 1 <= k <= |params| then params[k - 1] else OtherValue)
  {
    DecimalIsNumeral(k);
  }

  lemma Step(c: char, rest: string, r: Region, k: nat, params: seq<Param>)
    requires !(r == Normal && c == '?') && !(|rest| > 0 && Pair(r, c, rest[0]))
    ensures Translated([c] + rest, r, k, params) == [c] + Translated(rest, AfterChar(r, c), k, params)
  {
    hide Pair, AfterPair, AfterChar;
    assert ([c] + rest)[1..] == rest;
    TranslatedStep([c] + rest, 0, r, k, params);
    assert ([c] + rest)[0..] == [c] + rest;
  }

  lemma PairStep(a: char, b: char, rest: string, r: Region, k: nat, params: seq<Param>)
    requires Pair(r, a, b)
    ensures Translated([a, b] + rest, r, k, params) == [a, b] + Translated(rest, AfterPair(r, a), k, params)
  {
    hide Pair, AfterPair, AfterChar;
    var s := [a, b] + rest;
    TranslatedStep(s, 0, r, k, params);
    assert s[0..] == s && s[2..] == rest;
  }

  lemma {:induction false} QuotedIsCopied(mark: char, body: string, closed: bool, rest: string, k: nat, params: seq<Param>)
    requires mark == '\'' || mark == '"'
    requires if closed then !StartsWith(rest, mark) else rest == ""
    ensures var r := if mark == '\'' then SingleQuote else DoubleQuote;
            Translated(Doubled(mark, body) + ((if closed then [mark] else "") + rest), r, k, params)
            == Doubled(mark, body) + ((if closed then [mark] else "") + Translated(rest, Normal, k, params))
  {
    hide Translated;
    var r := if mark == '\'' then SingleQuote else DoubleQuote;
    var tail := (if closed then [mark] else "") + rest;
    var after := (if closed then [mark] else "") + Translated(rest, Normal, k, params);
    if |body| == 0 {
      NothingLeft(r, k, params);
      NothingLeft(Normal, k, params);
      assert "" + tail == tail && "" + after == after;
      if closed {
        Step(mark, rest, r, k, params);
      }
    } else {
      QuotedIsCopied(mark, body[1..], closed, rest, k, params);
      var more := Doubled(mark, body[1..]);
      if body[0] == mark {
        PairStep(mark, mark, more + tail, r, k, params);
        Regrouped([mark, mark], more, tail);
        Regrouped([mark, mark], more, after);
      } else {
        Step(body[0], more + tail, r, k, params);
        Regrouped([body[0]], more, tail);
        Regrouped([body[0]], more, after);
      }
    }
  }

  lemma NothingLeft(r: Region, k: nat, params: seq<Param>)
    ensures Translated("", r, k, params) == ""
    ensures "" + "" == ""
  {
  }

  lemma {:induction false} LineNoteIsCopied(body: string, closed: bool, rest: string, k: nat, params: seq<Param>)
    requires '\n' !in body && (!closed ==> rest == "")
    ensures Translated(body + ((if closed then "\n" else "") + rest), LineComment, k, params)
         == body + ((if closed then "\n" else "") + Translated(rest, Normal, k, params))
  {
    hide Translated;
    var tail := (if closed then "\n" else "") + rest;
    var after := (if closed then "\n" else "") + Translated(rest, Normal, k, params);
    if |body| == 0 {
      NothingLeft(LineComment, k, params);
      NothingLeft(Normal, k, params);
      assert body + tail == tail && body + after == after;
      if closed {
        Step('\n', rest, LineComment, k, params);
      }
    } else {
      LineNoteIsCopied(body[1..], closed, rest, k, params);
      assert body == [body[0]] + body[1..];
      Step(body[0], body[1..] + tail, LineComment, k, params);
      Regrouped([body[0]], body[1..], tail);
      Regrouped([body[0]], body[1..], after);
    }
  }

  lemma {:induction false} BlockNoteIsCopied(body: string, closed: bool, rest: string, k: nat, params: seq<Param>)
    requires NoBlockEnd(body) && (!closed ==> rest == "")
    ensures Translated(body + ((if closed then "*/" else "") + rest), BlockComment, k, params)
         == body + ((if closed then "*/" else "") + Translated(rest, Normal, k, params))
  {
    hide Translated;
    var tail := (if closed then "*/" else "") + rest;
    var after := (if closed then "*/" else "") + Translated(rest, Normal, k, params);
    if |body| == 0 {
      NothingLeft(BlockComment, k, params);
      NothingLeft(Normal, k, params);
      assert body + tail == tail && body + after == after;
      if closed {
        PairStep('*', '/', rest, BlockComment, k, params);
      }
    } else {
      var more := body[1..];
      forall i | 0 <= i < |more| - 1 ensures !(more[i] == '*' && more[i + 1] == '/') {
        assert body[i + 1] == more[i] && body[i + 1 + 1] == more[i + 1];
      }
      BlockNoteIsCopied(more, closed, rest, k, params);
      assert body == [body[0]] + body[1..];
      var next := body[1..] + tail;
      assert |next| > 0 ==> next[0] == if |body| > 1 then body[1] else '*';
      Step(body[0], next, BlockComment, k, params);
      Regrouped([body[0]], body[1..], tail);
      Regrouped([body[0]], body[1..], after);
    }
  }

  lemma LexemeIsCopied(l: Lexeme, behind: string, k: nat, params: seq<Param>)
    requires !l.Question? && StandsBefore(l, behind)
    ensures Translated(TextOf(l) + behind, Normal, k, params) == TextOf(l) + Translated(behind, Normal, k, params)
  {
    hide Translated, Doubled, NoBlockEnd;
    var after := Translated(behind, Normal, k, params);
    match l
    case Plain(c) =>
      Step(c, behind, Normal, k, params);
    case Quoted(mark, body, closed) =>
      QuotedIsCopied(mark, body, closed, behind, k, params);
      var end := if closed then [mark] else "";
      Step(mark, Doubled(mark, body) + (end + behind), Normal, k, params);
      Around([mark], Doubled(mark, body), end, behind);
      Around([mark], Doubled(mark, body), end, after);
    case LineNote(body, closed) =>
      LineNoteIsCopied(body, closed, behind, k, params);
      var end := if closed then "\n" else "";
      PairStep('-', '-', body + (end + behind), Normal, k, params);
      Around("--", body, end, behind);
      Around("--", body, end, after);
    case BlockNote(body, closed) =>
      BlockNoteIsCopied(body, closed, behind, k, params);
      var end := if closed then "*/" else "";
      PairStep('/', '*', body + (end + behind), Normal, k, params);
      Around("/*", body, end, behind);
      Around("/*", body, end, after);
  }

  lemma QuestionIsFilled(behind: string, k: nat, params: seq<Param>)
    ensures Translated("?" + behind, Normal, k, params)
         == Placeholder(k, ParamAt(params, k)) + Translated(behind, Normal, k + 1, params)
  {
    hide Translated, Placeholder, ParamAt;
    TranslatedStep("?" + behind, 0, Normal, k, params);
    assert ("?" + behind)[0..] == "?" + behind && ("?" + behind)[1..] == behind;
  }

  lemma OneMoreNumbered(first: string, more: seq<string>, k: nat, params: seq<Param>)
    requires Numbered(first, k, if 1 <= k <= |params| then params[k - 1] else OtherValue)
    requires NumberedFrom(more, k + 1, params)
    ensures NumberedFrom([first] + more, k, params)
  {
    hide Numbered;
    var texts := [first] + more;
    forall j | 0 <= j < |texts|
      ensures Numbered(texts[j], k + j, if 1 <= k + j <= |params| then params[k + j - 1] else OtherValue)
    {
      if j > 0 {
        assert texts[j] == more[j - 1] && k + 1 + (j - 1) == k + j;
      }
    }
  }

  /** A text is copied lexeme by lexeme, but for the question marks: the j-th becomes the
      parameter of that number, cast by the kind of the j-th value. */
  lemma {:induction false} LexemesAreRendered(lexemes: seq<Lexeme>, k: nat, params: seq<Param>) returns (texts: seq<string>)
    requires WellWritten(lexemes)
    ensures |texts| == Questions(lexemes) && NumberedFrom(texts, k, params)
    ensures Translated(Written(lexemes), Normal, k, params) == Rendered(lexemes, texts)
  {
    hide Translated, Numbered, NumberedFrom, Placeholder, ParamAt, StandsBefore;
    if |lexemes| == 0 {
      NothingLeft(Normal, k, params);
      texts := [];
      assert NumberedFrom(texts, k, params) by { NoneNumbered(k, params); }
    } else if lexemes[0].Question? {
      var more := LexemesAreRendered(lexemes[1..], k + 1, params);
      PlaceholderIsNumbered(k, params);
      texts := [Placeholder(k, ParamAt(params, k))] + more;
      assert texts[1..] == more;
      OneMoreNumbered(texts[0], more, k, params);
      QuestionIsFilled(Written(lexemes[1..]), k, params);
    } else {
      texts := LexemesAreRendered(lexemes[1..], k, params);
      hide TextOf;
      LexemeIsCopied(lexemes[0], Written(lexemes[1..]), k, params);
    }
  }

  lemma NoneNumbered(k: nat, params: seq<Param>)
    ensures NumberedFrom([], k, params)
  {
  }

  lemma Around(start: string, body: string, end: string, rest: string)
    ensures start + (body + end) + rest == start + (body + (end + rest))
  {
  }

  // ---- Every text has such a reading

  lemma {:induction false} QuotedEnds(mark: char, t: string) returns (body: string, closed: bool, rest: string)
    ensures t == Doubled(mark, body) + ((if closed then [mark] else "") + rest)
    ensures if closed then !StartsWith(rest, mark) else rest == ""
    ensures |rest| <= |t|
  {
    if |t| == 0 {
      body, closed, rest := "", false, "";
    } else if t[0] != mark {
      var more;
      more, closed, rest := QuotedEnds(mark, t[1..]);
      body := [t[0]] + more;
      assert body[1..] == more && t == [t[0]] + t[1..];
      Regrouped([t[0]], Doubled(mark, more), (if closed then [mark] else "") + rest);
    } else if StartsWith(t[1..], mark) {
      var more;
      more, closed, rest := QuotedEnds(mark, t[2..]);
      body := [mark] + more;
      assert body[1..] == more && t == [mark, mark] + t[2..];
      Regrouped([mark, mark], Doubled(mark, more), (if closed then [mark] else "") + rest);
    } else {
      body, closed, rest := "", true, t[1..];
      assert t == [mark] + t[1..];
    }
  }

  lemma {:induction false} LineNoteEnds(t: string) returns (body: string, closed: bool, rest: string)
    ensures t == body + ((if closed then "\n" else "") + rest) && '\n' !in body && (!closed ==> rest == "")
    ensures |rest| <= |t|
  {
    if |t| == 0 {
      body, closed, rest := "", false, "";
    } else if t[0] == '\n' {
      body, closed, rest := "", true, t[1..];
    } else {
      var more;
      more, closed, rest := LineNoteEnds(t[1..]);
      body := [t[0]] + more;
      assert t == [t[0]] + t[1..];
    }
  }

  lemma {:induction false} BlockNoteEnds(t: string) returns (body: string, closed: bool, rest: string)
    ensures t == body + ((if closed then "*/" else "") + rest) && NoBlockEnd(body) && (!closed ==> rest == "")
    ensures |rest| <= |t|
  {
    if |t| == 0 {
      body, closed, rest := "", false, "";
    } else if t[0] == '*' && StartsWith(t[1..], '/') {
      body, closed, rest := "", true, t[2..];
      assert t == "*/" + t[2..];
    } else {
      var more;
      more, closed, rest := BlockNoteEnds(t[1..]);
      body := [t[0]] + more;
      assert t == [t[0]] + t[1..];
      assert forall i :: 1 <= i < |body| ==> body[i] == more[i - 1];
      assert |more| > 0 ==> more[0] == t[1];
    }
  }

  /** Every text is a sequence of lexemes, in one way or another. */
  lemma {:induction false} EveryTextIsWritten(s: string) returns (lexemes: seq<Lexeme>)
    ensures WellWritten(lexemes) && Written(lexemes) == s
    decreases |s|
  {
    if |s| == 0 {
      return [];
    }
    var first: Lexeme;
    var rest := s[1..];
    assert s == [s[0]] + rest;
    if s[0] == '\'' || s[0] == '"' {
      var body, closed;
      body, closed, rest := QuotedEnds(s[0], s[1..]);
      first := Quoted(s[0], body, closed);
      Around([s[0]], Doubled(s[0], body), if closed then [s[0]] else "", rest);
    } else if s[0] == '?' {
      first := Question;
    } else if s[0] == '-' && StartsWith(rest, '-') {
      var body, closed;
      body, closed, rest := LineNoteEnds(s[2..]);
      first := LineNote(body, closed);
      Around("--", body, if closed then "\n" else "", rest);
      assert s == "--" + s[2..];
    } else if s[0] == '/' && StartsWith(rest, '*') {
      var body, closed;
      body, closed, rest := BlockNoteEnds(s[2..]);
      first := BlockNote(body, closed);
      Around("/*", body, if closed then "*/" else "", rest);
      assert s == "/*" + s[2..];
    } else {
      first := Plain(s[0]);
    }
    var more := EveryTextIsWritten(rest);
    lexemes := [first] + more;
    assert lexemes[1..] == more;
  }
}
