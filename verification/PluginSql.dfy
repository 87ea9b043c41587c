/**
 * Rewriting plugin SQL: explicit {{name}} markers in code become quoted identifiers
 * namespaced by the plugin; quoted text and comments stay as they are.
 */
module PluginSql {
  import opened Wrappers

  datatype SqlError = InvalidName(name: string) | MalformedMarker | UnknownMarker(name: string)

  datatype Mode = Code | Single | Double | Backtick | Bracket | Line | Block

  type Formatted = Result<string, SqlError>

  // ---- Identifiers -------------------------------------------------------------------

  newtype Byte = b: int | 0 <= b < 256

  predicate LowerOrDigit(c: char) {
    'a' <= c <= 'z' || '0' <= c <= '9'
  }

  predicate LogicalName(name: string) {
    && |name| > 0 && 'a' <= name[0] <= 'z'
    && forall i :: 0 <= i < |name| ==> LowerOrDigit(name[i]) || name[i] == '_'
  }

  const DIGITS := "0123456789abcdef"

  function HexDigit(d: int): (c: char)
    requires 0 <= d < 16
    ensures LowerOrDigit(c)
  {
    DIGITS[d]
  }

  function Hex(id: seq<Byte>): (r: string)
    ensures |r| == 2 * |id|
    ensures forall i :: 0 <= i < |r| ==> LowerOrDigit(r[i])
  {
    if |id| == 0 then ""
    else [HexDigit(id[0] as int / 16), HexDigit(id[0] as int % 16)] + Hex(id[1..])
  }

  function Prefixed(id: seq<Byte>, name: string): string {
    "p_" + Hex(id) + "__" + name
  }

  // The identifier of a well-formed name.
  function Quote(id: seq<Byte>, name: string): string {
    "\"" + Prefixed(id, name) + "\""
  }

  function PluginIdentifier(id: seq<Byte>, name: string): Formatted {
    if LogicalName(name) then Ok(Quote(id, name)) else Err(InvalidName(name))
  }

  lemma HexDigitInjective(a: int, b: int)
    requires 0 <= a < 16 && 0 <= b < 16 && HexDigit(a) == HexDigit(b)
    ensures a == b
  {
  }

  lemma {:induction false} HexInjective(a: seq<Byte>, b: seq<Byte>)
    requires Hex(a) == Hex(b)
    ensures a == b
  {
    assert |a| == |b|;
    if |a| > 0 {
      var x, y := Hex(a), Hex(b);
      assert x[0] == y[0] && x[1] == y[1];
      HexDigitInjective(a[0] as int / 16, b[0] as int / 16);
      HexDigitInjective(a[0] as int % 16, b[0] as int % 16);
      assert x[2..] == Hex(a[1..]) && y[2..] == Hex(b[1..]);
      HexInjective(a[1..], b[1..]);
    }
  }

  lemma PrefixSplit(id: seq<Byte>, name: string, id': seq<Byte>, name': string)
    requires Prefixed(id, name) == Prefixed(id', name') && |Hex(id)| <= |Hex(id')|
    ensures Hex(id) == Hex(id') && name == name'
  {
    var x, h, h' := Prefixed(id, name), Hex(id), Hex(id');
    assert x[2..2 + |h|] == h && x[2 + |h|] == '_' && x[2 + |h| + 2..] == name;
    assert x[2..2 + |h'|] == h' && x[2 + |h'| + 2..] == name';
    assert forall k :: 0 <= k < |h'| ==> h'[k] == x[2 + k];
  }

  /** Two plugins, or two names of one plugin, never share an identifier. */
  lemma IdentifiersDistinct(id: seq<Byte>, name: string, id': seq<Byte>, name': string)
    requires PluginIdentifier(id, name).Ok? && PluginIdentifier(id, name) == PluginIdentifier(id', name')
    ensures id == id' && name == name'
  {
    var a, b := Prefixed(id, name), Prefixed(id', name');
    assert Quote(id, name)[1..|a| + 1] == a && Quote(id', name')[1..|b| + 1] == b;
    if |Hex(id)| <= |Hex(id')| {
      PrefixSplit(id, name, id', name');
    } else {
      PrefixSplit(id', name', id, name);
    }
    HexInjective(id, id');
  }

  // ---- Formatting, one step of the loop at a time ------------------------------------

  function Prepend(text: string, r: Formatted): Formatted {
    match r
    case Ok(rest) => Ok(text + rest)
    case Err(e) => Err(e)
  }

  lemma PrependTwice(a: string, b: string, r: Formatted)
    ensures Prepend(a, Prepend(b, r)) == Prepend(a + b, r)
  {
    if r.Ok? {
      assert a + (b + r.value) == a + b + r.value;
    }
  }

  lemma PrependEmpty(r: Formatted)
    ensures Prepend("", r) == r
  {
    if r.Ok? {
      assert "" + r.value == r.value;
    }
  }

  predicate At(s: string, c: char) {
    |s| > 0 && s[0] == c
  }

  predicate At2(s: string, c: char, n: char) {
    |s| > 1 && s[0] == c && s[1] == n
  }

  // Where "}}" first occurs, or -1.
  function FindClose(s: string): (i: int)
    ensures -1 <= i && (i >= 0 ==> i + 2 <= |s| && s[i] == '}' && s[i + 1] == '}')
  {
    if |s| < 2 then -1
    else if At2(s, '}', '}') then 0
    else
      var i := FindClose(s[1..]);
      if i < 0 then -1 else i + 1
  }

  function Terminator(mode: Mode): char {
    match mode
    case Single => '\''
    case Double => '"'
    case Backtick => '`'
    case _ => ']'
  }

  predicate Doubles(mode: Mode) {
    mode == Single || mode == Double || mode == Backtick
  }

  function Opens(s: string): Mode {
    if At(s, '\'') then Single
    else if At(s, '"') then Double
    else if At(s, '`') then Backtick
    else if At(s, '[') then Bracket
    else if At2(s, '-', '-') then Line
    else if At2(s, '/', '*') then Block
    else Code
  }

  function OpenerLength(mode: Mode): nat {
    if mode == Line || mode == Block then 2 else 1
  }

  // One turn of the loop: the text written, the characters consumed and the next mode.
  datatype Turn = Turn(text: string, length: nat, mode: Mode) | Fail(error: SqlError)

  function Take(s: string, n: nat, mode: Mode): Turn
    requires n <= |s|
  {
    Turn(s[..n], n, mode)
  }

  function MarkerTurn(id: seq<Byte>, known: set<string>, s: string): (r: Turn)
    requires |s| > 0
    ensures r.Turn? ==> 4 <= r.length <= |s| && |r.text| > 0
  {
    if !At2(s, '{', '{') then Fail(MalformedMarker) else
      var end := FindClose(s[2..]);
      if end < 0 then Fail(MalformedMarker) else
        var name := s[2..2 + end];
        if !LogicalName(name) || name !in known then Fail(UnknownMarker(name))
        else Turn(Quote(id, name), 2 + end + 2, Code)
  }

  function CodeTurn(id: seq<Byte>, known: set<string>, s: string): (r: Turn)
    requires |s| > 0
    ensures r.Turn? ==> 0 < r.length <= |s| && |r.text| > 0
  {
    if Opens(s) != Code then Take(s, OpenerLength(Opens(s)), Opens(s))
    else if s[0] == '{' || s[0] == '}' then MarkerTurn(id, known, s)
    else Take(s, 1, Code)
  }

  function OpaqueTurn(s: string, mode: Mode): (r: Turn)
    requires |s| > 0
    ensures r.Turn? && 0 < r.length <= |s| && r.text == s[..r.length]
  {
    if mode == Line then Take(s, 1, if s[0] == '\n' then Code else Line)
    else if mode == Block then
      if At2(s, '*', '/') then Take(s, 2, Code) else Take(s, 1, Block)
    else if At(s, Terminator(mode)) then
      if Doubles(mode) && At2(s, Terminator(mode), Terminator(mode)) then Take(s, 2, mode) else Take(s, 1, Code)
    else Take(s, 1, mode)
  }

  function NextTurn(id: seq<Byte>, known: set<string>, s: string, mode: Mode): (r: Turn)
    requires |s| > 0
    ensures r.Turn? ==> 0 < r.length <= |s| && |r.text| > 0
  {
    if mode == Code then CodeTurn(id, known, s) else OpaqueTurn(s, mode)
  }

  function Format(id: seq<Byte>, known: set<string>, s: string, mode: Mode): Formatted
    decreases |s|
  {
    if |s| == 0 then Ok("") else
      match NextTurn(id, known, s, mode)
      case Fail(e) => Err(e)
      case Turn(text, length, mode') => Prepend(text, Format(id, known, s[length..], mode'))
  }

  // What is written so far and what is ahead make up the whole.
  predicate Written(id: seq<Byte>, known: set<string>, sql: string, i: nat, mode: Mode, out: string) {
    i <= |sql| && Format(id, known, sql, Code) == Prepend(out, Format(id, known, sql[i..], mode))
  }

  lemma NothingWritten(id: seq<Byte>, known: set<string>, sql: string)
    ensures Written(id, known, sql, 0, Code, "")
  {
    assert sql[0..] == sql;
    PrependEmpty(Format(id, known, sql, Code));
  }

  lemma OneTurn(id: seq<Byte>, known: set<string>, sql: string, i: nat, mode: Mode, out: string, turn: Turn)
    requires i < |sql| && turn == NextTurn(id, known, sql[i..], mode) && Written(id, known, sql, i, mode, out)
    ensures if turn.Turn? then Written(id, known, sql, i + turn.length, turn.mode, out + turn.text)
            else Format(id, known, sql, Code) == Err(turn.error)
  {
    if turn.Turn? {
      assert sql[i..][turn.length..] == sql[i + turn.length..];
      PrependTwice(out, turn.text, Format(id, known, sql[i + turn.length..], turn.mode));
    }
  }

  lemma AllWritten(id: seq<Byte>, known: set<string>, sql: string, mode: Mode, out: string)
    requires Written(id, known, sql, |sql|, mode, out)
    ensures Format(id, known, sql, Code) == Ok(out)
  {
    assert sql[|sql|..] == "" && out + "" == out;
  }

  // The first object whose name is malformed.
  predicate FirstBad(objects: seq<string>, k: int) {
    0 <= k < |objects| && !LogicalName(objects[k]) && forall j :: 0 <= j < k ==> LogicalName(objects[j])
  }

  // The loop over the objects, each of which must be well-formed.
  method CheckObjects(objects: seq<string>) returns (bad: Option<nat>)
    ensures bad.Some? ==> FirstBad(objects, bad.value)
    ensures bad.None? ==> forall k :: 0 <= k < |objects| ==> LogicalName(objects[k])
  {
    for k := 0 to |objects|
      invariant forall j :: 0 <= j < k ==> LogicalName(objects[j])
    {
      if !LogicalName(objects[k]) { return Some(k); }
    }
    return None;
  }

  method FormatPluginSql(id: seq<Byte>, sql: string, objects: seq<string>) returns (r: Formatted)
    ensures (forall k :: 0 <= k < |objects| ==> LogicalName(objects[k])) ==>
              r == Format(id, set k | 0 <= k < |objects| :: objects[k], sql, Code)
    ensures (exists k :: 0 <= k < |objects| && !LogicalName(objects[k])) ==> r.Err? && r.error.InvalidName?
    ensures forall k :: FirstBad(objects, k) ==> r == Err(InvalidName(objects[k]))
  {
    var bad := CheckObjects(objects);
    if bad.Some? { return Err(InvalidName(objects[bad.value])); }
    r := FormatText(id, set k | 0 <= k < |objects| :: objects[k], sql);
  }

  // The loop over the text.
  method FormatText(id: seq<Byte>, known: set<string>, sql: string) returns (r: Formatted)
    ensures r == Format(id, known, sql, Code)
  {
    var out, i, mode := "", 0, Code;
    NothingWritten(id, known, sql);
    while i < |sql|
      invariant 0 <= i <= |sql| && Written(id, known, sql, i, mode, out)
    {
      var turn: Turn;
      if mode == Code {
        turn := InCode(id, known, sql, i);
      } else {
        turn := InOpaque(sql, i, mode);
      }
      OneTurn(id, known, sql, i, mode, out, turn);
      if turn.Fail? { return Err(turn.error); }
      out, i, mode := out + turn.text, i + turn.length, turn.mode;
    }
    AllWritten(id, known, sql, mode, out);
    return Ok(out);
  }

  // The loop body in code.
  method InCode(id: seq<Byte>, known: set<string>, sql: string, i: nat) returns (turn: Turn)
    requires i < |sql|
    ensures turn == CodeTurn(id, known, sql[i..])
  {
    var c := sql[i];
    var two := i + 1 < |sql|;
    if c == '\'' { return Turn([c], 1, Single); }
    if c == '"' { return Turn([c], 1, Double); }
    if c == '`' { return Turn([c], 1, Backtick); }
    if c == '[' { return Turn([c], 1, Bracket); }
    if two && c == '-' && sql[i + 1] == '-' { return Turn("--", 2, Line); }
    if two && c == '/' && sql[i + 1] == '*' { return Turn("/*", 2, Block); }
    if c == '{' || c == '}' {
      if c != '{' || !two || sql[i + 1] != '{' { return Fail(MalformedMarker); }
      assert sql[i..][2..] == sql[i + 2..];
      var end := FindClose(sql[i + 2..]);
      if end < 0 { return Fail(MalformedMarker); }
      var name := sql[i + 2..i + 2 + end];
      assert name == sql[i..][2..2 + end];
      if !LogicalName(name) || name !in known { return Fail(UnknownMarker(name)); }
      return Turn(Quote(id, name), 2 + end + 2, Code);
    }
    return Turn([c], 1, Code);
  }

  // The loop body inside quoted text or a comment.
  method InOpaque(sql: string, i: nat, mode: Mode) returns (turn: Turn)
    requires i < |sql| && mode != Code
    ensures turn == OpaqueTurn(sql[i..], mode)
  {
    var c := sql[i];
    var two := i + 1 < |sql|;
    if mode == Line {
      return Turn([c], 1, if c == '\n' then Code else Line);
    }
    if mode == Block {
      if c == '*' && two && sql[i + 1] == '/' { return Turn("*/", 2, Code); }
      return Turn([c], 1, Block);
    }
    if c == Terminator(mode) {
      if Doubles(mode) && two && sql[i + 1] == c { return Turn([c, c], 2, mode); }
      return Turn([c], 1, Code);
    }
    return Turn([c], 1, mode);
  }
}
