/**
 * A reference lexer for SQL text with markers, and what formatting does to the
 * segments it finds.
 */
module PluginSqlProofs {
  import opened Wrappers
  import opened PluginSql

  // ---- The reference lexer -------------------------------------------------------------

  // A code character, a whole quoted text or comment, a marker, or a stray brace.
  datatype Segment = Char(c: char) | Opaque(mode: Mode, text: string) | Marker(name: string) | Stray

  /** How much of s belongs to the quoted text or comment already opened. */
  function OpaqueLength(mode: Mode, s: string): (n: nat)
    ensures n <= |s|
    decreases |s|
  {
    if |s| == 0 then 0
    else if mode == Line then if s[0] == '\n' then 1 else 1 + OpaqueLength(mode, s[1..])
    else if mode == Block then if At2(s, '*', '/') then 2 else 1 + OpaqueLength(mode, s[1..])
    else if s[0] != Terminator(mode) then 1 + OpaqueLength(mode, s[1..])
    else if Doubles(mode) && At2(s, Terminator(mode), Terminator(mode)) then 2 + OpaqueLength(mode, s[2..])
    else 1
  }

  predicate IsMarker(s: string) {
    At2(s, '{', '{') && FindClose(s[2..]) >= 0
  }

  function First(s: string): (r: (Segment, nat))
    requires |s| > 0
    ensures 0 < r.1 <= |s|
  {
    if Opens(s) != Code then
      var k := OpenerLength(Opens(s));
      var n := k + OpaqueLength(Opens(s), s[k..]);
      (Opaque(Opens(s), s[..n]), n)
    else if s[0] == '{' || s[0] == '}' then
      if IsMarker(s) then (Marker(s[2..2 + FindClose(s[2..])]), 2 + FindClose(s[2..]) + 2) else (Stray, 1)
    else (Char(s[0]), 1)
  }

  function Lex(s: string): seq<Segment>
    decreases |s|
  {
    if |s| == 0 then [] else [First(s).0] + Lex(s[First(s).1..])
  }

  // ---- What formatting is, in terms of segments ------------------------------------------

  function Text(id: seq<Byte>, g: Segment): string {
    match g
    case Char(c) => [c]
    case Opaque(_, text) => text
    case Marker(name) => Quote(id, name)
    case Stray => ""
  }

  function Render(id: seq<Byte>, gs: seq<Segment>): string {
    if |gs| == 0 then "" else Text(id, gs[0]) + Render(id, gs[1..])
  }

  function Complaint(known: set<string>, g: Segment): Option<SqlError> {
    match g
    case Marker(name) => if LogicalName(name) && name in known then None else Some(UnknownMarker(name))
    case Stray => Some(MalformedMarker)
    case _ => None
  }

  function FirstComplaint(known: set<string>, gs: seq<Segment>): Option<SqlError> {
    if |gs| == 0 then None
    else if Complaint(known, gs[0]).Some? then Complaint(known, gs[0])
    else FirstComplaint(known, gs[1..])
  }

  lemma OpaqueStep(mode: Mode, s: string)
    requires mode != Code && |s| > 0
    ensures var t := OpaqueTurn(s, mode);
            if t.mode == Code then OpaqueLength(mode, s) == t.length
            else t.mode == mode && OpaqueLength(mode, s) == t.length + OpaqueLength(mode, s[t.length..])
  {
  }

  lemma FormatStep(id: seq<Byte>, known: set<string>, s: string, mode: Mode, t: Turn)
    requires |s| > 0 && t == NextTurn(id, known, s, mode)
    ensures Format(id, known, s, mode) ==
            if t.Fail? then Err(t.error) else Prepend(t.text, Format(id, known, s[t.length..], t.mode))
  {
  }

  lemma SliceTwice(s: string, k: nat, m: nat)
    requires k + m <= |s|
    ensures s[..k + m] == s[..k] + s[k..][..m] && s[k + m..] == s[k..][m..]
  {
  }

  /** Inside quoted text or a comment, formatting copies up to its end and goes on in code. */
  lemma {:induction false} FormatOpaque(id: seq<Byte>, known: set<string>, s: string, mode: Mode, n: nat, r: Formatted)
    requires mode != Code && n == OpaqueLength(mode, s) && r == Format(id, known, s[n..], Code)
    ensures Format(id, known, s, mode) == Prepend(s[..n], r)
    decreases |s|
  {
    if |s| == 0 {
      PrependEmpty(r);
    } else {
      var t := OpaqueTurn(s, mode);
      var k := t.length;
      OpaqueStep(mode, s);
      FormatStep(id, known, s, mode, t);
      if t.mode != Code {
        SliceTwice(s, k, n - k);
        FormatOpaque(id, known, s[k..], mode, n - k, r);
        PrependTwice(s[..k], s[k..][..n - k], r);
      }
    }
  }

  /**
   * Formatting fails with the first complaint about a marker or brace in code, and otherwise
   * copies every segment but the markers, which become their identifiers.
   */
  lemma {:induction false} FormatIsRender(id: seq<Byte>, known: set<string>, s: string)
    ensures Format(id, known, s, Code) ==
            match FirstComplaint(known, Lex(s))
            case Some(e) => Err(e)
            case None => Ok(Render(id, Lex(s)))
    decreases |s|
  {
    if |s| > 0 {
      var (g, n) := First(s);
      assert Lex(s) == [g] + Lex(s[n..]);
      FormatIsRender(id, known, s[n..]);
      FormatFirst(id, known, s, Format(id, known, s[n..], Code));
    }
  }

  lemma FormatFirstOpaque(id: seq<Byte>, known: set<string>, s: string, n: nat, r: Formatted)
    requires |s| > 0 && Opens(s) != Code && n == First(s).1 && r == Format(id, known, s[n..], Code)
    ensures Format(id, known, s, Code) == Prepend(s[..n], r)
  {
    var k := OpenerLength(Opens(s));
    FormatStep(id, known, s, Code, Take(s, k, Opens(s)));
    SliceTwice(s, k, n - k);
    FormatOpaque(id, known, s[k..], Opens(s), n - k, r);
    PrependTwice(s[..k], s[k..][..n - k], r);
  }

  lemma FormatFirst(id: seq<Byte>, known: set<string>, s: string, r: Formatted)
    requires |s| > 0 && r == Format(id, known, s[First(s).1..], Code)
    ensures Format(id, known, s, Code) ==
            match Complaint(known, First(s).0)
            case Some(e) => Err(e)
            case None => Prepend(Text(id, First(s).0), r)
  {
    if Opens(s) != Code {
      FormatFirstOpaque(id, known, s, First(s).1, r);
    } else {
      FormatStep(id, known, s, Code, CodeTurn(id, known, s));
      assert s[..1] == [s[0]];
    }
  }

  // ---- Formatting twice -----------------------------------------------------------------

  /** Formatted text starts as its source does, or with the quote of an identifier. */
  lemma FormatStarts(id: seq<Byte>, known: set<string>, s: string, mode: Mode)
    requires Format(id, known, s, mode).Ok?
    ensures StartsLike(Format(id, known, s, mode).value, s, mode)
  {
  }

  // Formatting leaves s as it is, from this mode on.
  predicate Plain(id: seq<Byte>, known: set<string>, s: string, mode: Mode) {
    Format(id, known, s, mode) == Ok(s)
  }

  lemma PlainTurn(id: seq<Byte>, known: set<string>, s: string, mode: Mode, k: nat, mode': Mode)
    requires 0 < k <= |s| && NextTurn(id, known, s, mode) == Turn(s[..k], k, mode')
    ensures Plain(id, known, s, mode) <==> Plain(id, known, s[k..], mode')
  {
    var r := Format(id, known, s[k..], mode');
    assert s == s[..k] + s[k..];
    if r.Ok? && s[..k] + r.value == s {
      assert r.value == (s[..k] + r.value)[k..];
    }
  }

  /** Two quotes in a row are the same to a formatter whether they close and reopen or escape. */
  lemma ClosingQuote(id: seq<Byte>, known: set<string>, s: string, mode: Mode)
    requires Doubles(mode) && At(s, Terminator(mode)) && Plain(id, known, s[1..], Code)
    ensures Plain(id, known, s, mode)
  {
    if At2(s, Terminator(mode), Terminator(mode)) {
      assert Opens(s[1..]) == mode && s[1..][..1] == [s[1]] && s[1..][1..] == s[2..];
      PlainTurn(id, known, s[1..], Code, 1, mode);
      PlainTurn(id, known, s, mode, 2, mode);
    } else {
      PlainTurn(id, known, s, mode, 1, Code);
    }
  }

  lemma {:induction false} QuotePlain(id: seq<Byte>, known: set<string>, body: string, rest: string)
    requires '"' !in body && Plain(id, known, rest, Code)
    ensures Plain(id, known, body + "\"" + rest, Double)
    decreases |body|
  {
    var s := body + "\"" + rest;
    if |body| == 0 {
      assert s[1..] == rest;
      ClosingQuote(id, known, s, Double);
    } else {
      assert s[1..] == body[1..] + "\"" + rest;
      QuotePlain(id, known, body[1..], rest);
      PlainTurn(id, known, s, Double, 1, Double);
    }
  }

  lemma IdentifierPlain(id: seq<Byte>, known: set<string>, name: string, rest: string)
    requires LogicalName(name) && Plain(id, known, rest, Code)
    ensures Plain(id, known, Quote(id, name) + rest, Code)
  {
    var s, body := Quote(id, name) + rest, Prefixed(id, name);
    assert s[0] == '"' && s[1..] == body + "\"" + rest;
    forall i | 0 <= i < |body| ensures body[i] != '"' {
      assert |"p_"| == 2 && |"__"| == 2;
    }
    QuotePlain(id, known, body, rest);
    PlainTurn(id, known, s, Code, 1, Double);
  }

  // How formatted text may start, given its source.
  predicate StartsLike(out: string, s: string, mode: Mode) {
    if |s| == 0 then |out| == 0
    else |out| > 0 && (out[0] == s[0] || (mode == Code && s[0] == '{' && out[0] == '"'))
  }

  lemma CodeTurnAgain(id: seq<Byte>, known: set<string>, s: string, out: string, k: nat)
    requires |s| > 0 && k <= |s| && k <= |out| && s[..k] == out[..k]
    requires CodeTurn(id, known, s) == Turn(s[..k], k, Opens(s)) && (Opens(s) == Code ==> s[0] != '{' && s[0] != '}')
    requires StartsLike(out[k..], s[k..], Opens(s))
    ensures CodeTurn(id, known, out) == Turn(out[..k], k, Opens(s))
  {
    assert forall i :: 0 <= i < k ==> out[i] == s[i] by {
      assert forall i :: 0 <= i < k ==> s[..k][i] == out[..k][i];
    }
    if |s| > 1 && |out| > 1 && k == 1 {
      assert out[1] == out[1..][0] && s[1] == s[1..][0];
    }
  }

  lemma OpaqueTurnAgain(s: string, out: string, mode: Mode, k: nat)
    requires |s| > 0 && mode != Code && k <= |s| && k <= |out| && s[..k] == out[..k]
    requires OpaqueTurn(s, mode).length == k
    requires StartsLike(out[k..], s[k..], OpaqueTurn(s, mode).mode)
    requires OpaqueTurn(s, mode).mode == Code ==> !Doubles(mode)
    ensures OpaqueTurn(out, mode) == Turn(out[..k], k, OpaqueTurn(s, mode).mode)
  {
    assert forall i :: 0 <= i < k ==> out[i] == s[i] by {
      assert forall i :: 0 <= i < k ==> s[..k][i] == out[..k][i];
    }
    if |s| > 1 && |out| > 1 && k == 1 {
      assert out[1] == out[1..][0] && s[1] == s[1..][0];
    }
  }

  lemma FormatTwiceStep(id: seq<Byte>, known: set<string>, s: string, mode: Mode, rest: string)
    requires |s| > 0 && NextTurn(id, known, s, mode).Turn?
    requires var t := NextTurn(id, known, s, mode);
             Plain(id, known, rest, t.mode) && StartsLike(rest, s[t.length..], t.mode)
    ensures Plain(id, known, NextTurn(id, known, s, mode).text + rest, mode)
  {
    var t := NextTurn(id, known, s, mode);
    var out := t.text + rest;
    assert out[|t.text|..] == rest && out[..|t.text|] == t.text;
    if mode == Code {
      if Opens(s) == Code && s[0] == '{' {
        IdentifierPlain(id, known, s[2..2 + FindClose(s[2..])], rest);
      } else {
        CodeTurnAgain(id, known, s, out, t.length);
        PlainTurn(id, known, out, mode, t.length, t.mode);
      }
    } else if Doubles(mode) && t.mode == Code {
      ClosingQuote(id, known, out, mode);
    } else {
      OpaqueTurnAgain(s, out, mode, t.length);
      PlainTurn(id, known, out, mode, t.length, t.mode);
    }
  }

  /** Formatting what was formatted changes nothing, whatever touches the markers. */
  lemma {:induction false} FormatTwice(id: seq<Byte>, known: set<string>, s: string, mode: Mode)
    requires Format(id, known, s, mode).Ok?
    ensures Plain(id, known, Format(id, known, s, mode).value, mode)
    decreases |s|
  {
    if |s| > 0 {
      var t := NextTurn(id, known, s, mode);
      FormatStep(id, known, s, mode, t);
      FormatTwice(id, known, s[t.length..], t.mode);
      FormatStarts(id, known, s[t.length..], t.mode);
      FormatTwiceStep(id, known, s, mode, Format(id, known, s[t.length..], t.mode).value);
    }
  }

  // ---- The output lexes to the same segments --------------------------------------------

  /** The segment the output should show: a marker as one double-quoted identifier. */
  function Shown(id: seq<Byte>, g: Segment): Segment {
    if g.Marker? then Opaque(Double, Quote(id, g.name)) else g
  }

  function ShownAll(id: seq<Byte>, gs: seq<Segment>): (r: seq<Segment>)
    ensures |r| == |gs| && forall i :: 0 <= i < |gs| ==> r[i] == Shown(id, gs[i])
  {
    if |gs| == 0 then [] else [Shown(id, gs[0])] + ShownAll(id, gs[1..])
  }

  predicate DoubleQuoted(g: Segment) {
    g.Marker? || (g.Opaque? && g.mode == Double)
  }

  /** A marker touches another marker or a double-quoted text. */
  predicate Touching(gs: seq<Segment>) {
    exists i :: 0 <= i < |gs| - 1 && DoubleQuoted(gs[i]) && DoubleQuoted(gs[i + 1])
  }

  /** Quoted text never ends right before its own quote: that would be an escape. */
  lemma {:induction false} AfterQuote(mode: Mode, s: string)
    requires Doubles(mode)
    ensures var n := OpaqueLength(mode, s); n < |s| ==> s[n] != Terminator(mode)
    decreases |s|
  {
    if |s| > 0 {
      OpaqueStep(mode, s);
      if OpaqueTurn(s, mode).mode != Code {
        AfterQuote(mode, s[OpaqueTurn(s, mode).length..]);
      }
    }
  }

  predicate DoubleText(g: Segment) {
    g.Opaque? && g.mode == Double
  }

  // A double-quoted token is never followed by a double quote.
  lemma QuotedThen(s: string)
    requires |s| > 0 && DoubleText(First(s).0) && First(s).1 < |s|
    ensures !DoubleText(First(s[First(s).1..]).0)
  {
    var n := First(s).1;
    AfterQuote(Double, s[1..]);
    assert s[1..][n - 1] == s[n] && s[n..][0] == s[n];
  }

  lemma {:induction false} LexNeverSplitsQuotes(s: string)
    ensures forall i :: 0 <= i < |Lex(s)| - 1 ==> !(DoubleText(Lex(s)[i]) && DoubleText(Lex(s)[i + 1]))
    decreases |s|
  {
    if |s| > 0 {
      var (g, n) := First(s);
      var rest := Lex(s[n..]);
      assert Lex(s) == [g] + rest;
      LexNeverSplitsQuotes(s[n..]);
      if DoubleText(g) && n < |s| {
        QuotedThen(s);
        assert rest[0] == First(s[n..]).0;
      }
      assert forall i :: 0 < i < |rest| ==> ([g] + rest)[i] == rest[i - 1];
    }
  }

  lemma OpaqueTurnKept(mode: Mode, s: string, out: string, k: nat)
    requires |s| > 0 && mode != Code && k <= |s| && k <= |out| && s[..k] == out[..k]
    requires OpaqueTurn(s, mode).length == k
    requires |out| > k && |s| > k ==> OpaqueTurn(s, mode).mode == Code || out[k] == s[k]
    requires |out| > k && |s| <= k ==> OpaqueTurn(s, mode).mode == Code
    requires OpaqueTurn(s, mode).mode == Code && |out| > k && Doubles(mode) ==> out[k] != Terminator(mode)
    ensures OpaqueTurn(out, mode).length == k && OpaqueTurn(out, mode).mode == OpaqueTurn(s, mode).mode
  {
    assert forall i :: 0 <= i < k ==> out[i] == s[i] by {
      assert forall i :: 0 <= i < k ==> s[..k][i] == out[..k][i];
    }
  }

  lemma KeptSlices(s: string, n: nat, y: string, k: nat)
    requires k <= n < |s|
    ensures var out := s[..n] + y;
            && k <= |out| && out[..k] == s[..k] && out[k..] == s[k..][..n - k] + y && s[n..] == s[k..][n - k..]
            && (k < n ==> out[k] == s[k])
            && (k == n && |y| > 0 ==> out[k] == y[0])
  {
  }

  /** The end of quoted text or a comment stays where it is when what follows it changes. */
  lemma {:induction false} OpaqueLengthKept(mode: Mode, s: string, n: nat, y: string)
    requires mode != Code && n == OpaqueLength(mode, s) < |s|
    requires Doubles(mode) && |y| > 0 ==> y[0] != Terminator(mode)
    ensures OpaqueLength(mode, s[..n] + y) == n
    decreases |s|
  {
    var k := OpaqueTurn(s, mode).length;
    OpaqueStep(mode, s);
    KeptSlices(s, n, y, k);
    OpaqueTurnKept(mode, s, s[..n] + y, k);
    OpaqueStep(mode, s[..n] + y);
    if OpaqueTurn(s, mode).mode != Code {
      OpaqueNonEmpty(mode, s[k..]);
      OpaqueLengthKept(mode, s[k..], n - k, y);
    }
  }

  lemma OpaqueNonEmpty(mode: Mode, s: string)
    requires mode != Code && |s| > 0
    ensures OpaqueLength(mode, s) > 0
  {
  }

  lemma {:induction false} QuotedLength(body: string, y: string)
    requires '"' !in body && (|y| > 0 ==> y[0] != '"')
    ensures OpaqueLength(Double, body + "\"" + y) == |body| + 1
    decreases |body|
  {
    var s := body + "\"" + y;
    if |body| > 0 {
      assert s[1..] == body[1..] + "\"" + y;
      QuotedLength(body[1..], y);
    } else {
      assert |y| > 0 ==> s[1] == y[0];
    }
  }

  lemma MarkerShown(id: seq<Byte>, name: string, y: string)
    requires LogicalName(name) && (|y| > 0 ==> y[0] != '"')
    ensures First(Quote(id, name) + y) == (Opaque(Double, Quote(id, name)), |Quote(id, name)|)
  {
    var out, body := Quote(id, name) + y, Prefixed(id, name);
    assert out[0] == '"' && out[1..] == body + "\"" + y;
    forall i | 0 <= i < |body| ensures body[i] != '"' {
      assert |"p_"| == 2 && |"__"| == 2;
    }
    QuotedLength(body, y);
    assert out[..1 + |body| + 1] == Quote(id, name);
  }

  lemma OpensKept(s: string, out: string)
    requires Opens(s) != Code && OpenerLength(Opens(s)) <= |out|
    requires out[..OpenerLength(Opens(s))] == s[..OpenerLength(Opens(s))]
    ensures Opens(out) == Opens(s)
  {
    var k := OpenerLength(Opens(s));
    assert forall i :: 0 <= i < k ==> out[i] == out[..k][i] == s[..k][i] == s[i];
  }

  lemma OpaqueShown(s: string, n: nat, y: string)
    requires |s| > 0 && Opens(s) != Code && n == First(s).1
    requires n == |s| ==> |y| == 0
    requires n < |s| && Doubles(Opens(s)) && |y| > 0 ==> y[0] != Terminator(Opens(s))
    ensures First(s[..n] + y) == (Opaque(Opens(s), s[..n]), n)
  {
    if n == |s| {
      assert s[..n] + y == s;
    } else {
      var k := OpenerLength(Opens(s));
      KeptSlices(s, n, y, k);
      OpensKept(s, s[..n] + y);
      OpaqueLengthKept(Opens(s), s[k..], n - k, y);
      assert (s[..n] + y)[..n] == s[..n];
    }
  }

  lemma CharShown(s: string, y: string)
    requires |s| > 0 && Opens(s) == Code && s[0] != '{' && s[0] != '}' && StartsLike(y, s[1..], Code)
    ensures First([s[0]] + y) == (Char(s[0]), 1)
  {
    var out := [s[0]] + y;
    if |s| > 1 && |out| > 1 {
      assert out[1] == y[0] && s[1] == s[1..][0];
    }
  }

  lemma FirstShown(id: seq<Byte>, known: set<string>, s: string, y: string)
    requires |s| > 0 && Complaint(known, First(s).0).None?
    requires var n := First(s).1; StartsLike(y, s[n..], Code)
    requires DoubleQuoted(First(s).0) && |y| > 0 ==> y[0] != '"'
    ensures First(Text(id, First(s).0) + y) == (Shown(id, First(s).0), |Text(id, First(s).0)|)
  {
    var (g, n) := First(s);
    if Opens(s) != Code {
      if n < |s| && Doubles(Opens(s)) {
        AfterQuote(Opens(s), s[1..]);
        assert s[1..][n - 1] == s[n] && s[n..][0] == s[n];
      }
      OpaqueShown(s, n, y);
    } else if g.Marker? {
      MarkerShown(id, g.name, y);
    } else {
      CharShown(s, y);
    }
  }

  lemma NextNotQuoted(known: set<string>, s: string, y: string)
    requires StartsLike(y, s, Code) && |s| > 0
    requires !DoubleQuoted(First(s).0) && Complaint(known, First(s).0).None?
    ensures y[0] != '"'
  {
  }

  lemma {:induction false} OutputLexes(id: seq<Byte>, known: set<string>, s: string)
    requires FirstComplaint(known, Lex(s)).None? && !Touching(Lex(s))
    ensures Lex(Render(id, Lex(s))) == ShownAll(id, Lex(s))
    decreases |s|
  {
    if |s| > 0 {
      var (g, n) := First(s);
      var rest := Lex(s[n..]);
      assert Lex(s) == [g] + rest && Lex(s)[1..] == rest;
      forall i | 0 <= i < |rest| - 1 ensures !(DoubleQuoted(rest[i]) && DoubleQuoted(rest[i + 1])) {
        assert Lex(s)[i + 1] == rest[i] && Lex(s)[i + 2] == rest[i + 1];
      }
      OutputLexes(id, known, s[n..]);
      var y := Render(id, rest);
      FormatIsRender(id, known, s[n..]);
      FormatStarts(id, known, s[n..], Code);
      if DoubleQuoted(g) && n < |s| {
        assert rest[0] == First(s[n..]).0 && Lex(s)[0] == g && Lex(s)[1] == rest[0];
        NextNotQuoted(known, s[n..], y);
      }
      FirstShown(id, known, s, y);
      assert (Text(id, g) + y)[|Text(id, g)|..] == y;
    }
  }

  /**
   * The output lexes to the segments of the input, each marker as one double-quoted
   * identifier, exactly when no marker touches another marker or a double-quoted text.
   */
  lemma SegmentsSurvive(id: seq<Byte>, known: set<string>, s: string)
    requires Format(id, known, s, Code).Ok?
    ensures Lex(Format(id, known, s, Code).value) == ShownAll(id, Lex(s)) <==> !Touching(Lex(s))
  {
    FormatIsRender(id, known, s);
    if !Touching(Lex(s)) {
      OutputLexes(id, known, s);
    } else {
      var gs := Lex(s);
      var i :| 0 <= i < |gs| - 1 && DoubleQuoted(gs[i]) && DoubleQuoted(gs[i + 1]);
      LexNeverSplitsQuotes(Format(id, known, s, Code).value);
      assert DoubleText(ShownAll(id, gs)[i]) && DoubleText(ShownAll(id, gs)[i + 1]);
    }
  }
}
