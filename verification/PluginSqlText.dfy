/**
 * The identifiers and the lexer character by character: how an id is written, which
 * characters open a quoted text or comment, and where each of them ends.
 */
module PluginSqlText {
  import opened PluginSql
  import opened PluginSqlProofs

  // ---- Identifiers ---------------------------------------------------------------------

  predicate IsHexDigit(c: char) {
    '0' <= c <= '9' || 'a' <= c <= 'f'
  }

  function HexValue(c: char): int
    requires IsHexDigit(c)
  {
    if c <= '9' then c as int - '0' as int else c as int - 'a' as int + 10
  }

  // Two digits, the more significant first.
  predicate Spells(hi: char, lo: char, byte: Byte) {
    IsHexDigit(hi) && IsHexDigit(lo) && 16 * HexValue(hi) + HexValue(lo) == byte as int
  }

  lemma DigitReads(d: int)
    requires 0 <= d < 16
    ensures IsHexDigit(HexDigit(d)) && HexValue(HexDigit(d)) == d
  {
  }

  /** Reading the digits in pairs, most significant first, gives the id's bytes back. */
  lemma {:induction false} HexReadsBack(id: seq<Byte>, k: nat)
    requires k < |id|
    ensures Spells(Hex(id)[2 * k], Hex(id)[2 * k + 1], id[k])
  {
    if k == 0 {
      DigitReads(id[0] as int / 16);
      DigitReads(id[0] as int % 16);
    } else {
      HexReadsBack(id[1..], k - 1);
    }
  }

  /** A name is a small letter and then small letters, digits and underscores. */
  lemma NameIff(name: string)
    ensures LogicalName(name) <==>
            && name != "" && 'a' <= name[0] <= 'z'
            && forall i :: 0 <= i < |name| ==>
                 'a' <= name[i] <= 'z' || '0' <= name[i] <= '9' || name[i] == '_'
  {
  }

  /** The whole identifier, quotes and all: for the bytes of an id and a well-formed name only. */
  lemma IdentifierIs(id: seq<Byte>, name: string)
    ensures PluginIdentifier(id, name).Ok? <==> LogicalName(name)
    ensures LogicalName(name) ==>
              PluginIdentifier(id, name).value == ['"', 'p', '_'] + Hex(id) + ['_', '_'] + name + ['"']
  {
    assert "\"" + ("p_" + Hex(id) + "__" + name) + "\"" == ['"', 'p', '_'] + Hex(id) + ['_', '_'] + name + ['"'];
  }

  // ---- What opens, and where it ends ------------------------------------------------------

  // The characters at i and after.
  predicate Pair(s: string, i: int, c: char, n: char) {
    0 <= i < |s| - 1 && s[i] == c && s[i + 1] == n
  }

  /** Each mode has its own opener, and everything else is code. */
  lemma OpensIff(s: string)
    requires |s| > 0
    ensures Opens(s) == Single <==> s[0] == '\''
    ensures Opens(s) == Double <==> s[0] == '"'
    ensures Opens(s) == Backtick <==> s[0] == '`'
    ensures Opens(s) == Bracket <==> s[0] == '['
    ensures Opens(s) == Line <==> Pair(s, 0, '-', '-')
    ensures Opens(s) == Block <==> Pair(s, 0, '/', '*')
  {
  }

  /** A marker's name ends at the first "}}" after its braces. */
  lemma {:induction false} CloseIsFirst(s: string)
    ensures var end := FindClose(s);
            (forall i :: Pair(s, i, '}', '}') ==> 0 <= end <= i) && (end >= 0 ==> Pair(s, end, '}', '}'))
    decreases |s|
  {
    if |s| >= 2 && !At2(s, '}', '}') {
      CloseIsFirst(s[1..]);
      forall i | Pair(s, i, '}', '}') ensures 0 <= FindClose(s) <= i {
        assert Pair(s[1..], i - 1, '}', '}');
      }
    }
  }

  /** A line comment takes its newline, or all there is when it has none. */
  lemma {:induction false} LineEnds(s: string)
    ensures var n := OpaqueLength(Line, s);
            (forall i :: 0 <= i < n - 1 ==> s[i] != '\n') && (n == |s| || (n > 0 && s[n - 1] == '\n'))
    decreases |s|
  {
    if |s| > 0 && s[0] != '\n' {
      LineEnds(s[1..]);
    }
  }

  /** A block comment takes its first closing pair, or all there is when it has none. */
  lemma {:induction false} BlockEnds(s: string)
    ensures var n := OpaqueLength(Block, s);
            (forall i :: Pair(s, i, '*', '/') ==> n <= i + 2) && (n == |s| || Pair(s, n - 2, '*', '/'))
    decreases |s|
  {
    if |s| > 0 && !At2(s, '*', '/') {
      BlockEnds(s[1..]);
      forall i | Pair(s, i, '*', '/') ensures OpaqueLength(Block, s) <= i + 2 {
        assert Pair(s[1..], i - 1, '*', '/');
      }
    }
  }

  /** A bracketed name takes its first closing bracket: there is no escape. */
  lemma {:induction false} BracketEnds(s: string)
    ensures var n := OpaqueLength(Bracket, s);
            (forall i :: 0 <= i < n - 1 ==> s[i] != ']') && (n == |s| || (n > 0 && s[n - 1] == ']'))
    decreases |s|
  {
    if |s| > 0 && s[0] != ']' {
      BracketEnds(s[1..]);
    }
  }

  // A run of quotes ends here, and they are odd in number up to here: the last of them is no escape.
  predicate Closes(quote: char, s: string, n: int) {
    && 0 < n <= |s| && s[n - 1] == quote && (n < |s| ==> s[n] != quote)
    && multiset(s[..n])[quote] % 2 == 1
  }

  lemma QuotesPast(quote: char, s: string, k: nat, n: nat)
    requires k <= n <= |s|
    ensures multiset(s[..n])[quote] == multiset(s[..k])[quote] + multiset(s[k..][..n - k])[quote]
  {
    assert s[..n] == s[..k] + s[k..][..n - k];
  }

  lemma ClosesPast(quote: char, s: string, k: nat, n: nat)
    requires k < n <= |s| && multiset(s[..k])[quote] % 2 == 0
    ensures Closes(quote, s, n) <==> Closes(quote, s[k..], n - k)
  {
    QuotesPast(quote, s, k, n);
  }

  lemma QuoteHere(quote: char, s: string)
    requires |s| > 0 && s[0] == quote && !Pair(s, 0, quote, quote)
    ensures Closes(quote, s, 1)
  {
    assert s[..1] == [quote];
  }

  // A character that is no quote, or a doubled one, closes nothing.
  lemma NoneUpTo(quote: char, s: string, k: nat)
    requires (k == 1 <= |s| && s[0] != quote) || (k == 2 && Pair(s, 0, quote, quote))
    ensures multiset(s[..k])[quote] % 2 == 0 && !Closes(quote, s, 1) && !Closes(quote, s, k)
  {
    if k == 1 {
      assert s[..1] == [s[0]];
    } else {
      assert s[..2] == [quote, quote];
    }
  }

  lemma QuotedOn(quote: char, s: string, k: nat, m: nat)
    requires 0 < k <= 2 && k + m <= |s| && multiset(s[..k])[quote] % 2 == 0
    requires !Closes(quote, s, 1) && !Closes(quote, s, k)
    requires FirstClose(quote, s[k..], m)
    ensures FirstClose(quote, s, k + m)
  {
    forall i | Closes(quote, s, i) ensures k + m <= i {
      ClosesPast(quote, s, k, i);
    }
    if k + m < |s| {
      ClosesPast(quote, s, k, k + m);
    }
  }

  ghost predicate FirstClose(quote: char, s: string, n: int) {
    (forall i {:trigger Closes(quote, s, i)} :: Closes(quote, s, i) ==> n <= i) && (n == |s| || Closes(quote, s, n))
  }

  /** Quoted text takes the first quote that is not one of a doubled pair, or all there is when it has none. */
  lemma {:induction false} QuotedEnds(mode: Mode, quote: char, s: string)
    requires (mode == Single && quote == '\'') || (mode == Double && quote == '"') || (mode == Backtick && quote == '`')
    ensures FirstClose(quote, s, OpaqueLength(mode, s))
    decreases |s|
  {
    if |s| > 0 {
      if s[0] == quote && !Pair(s, 0, quote, quote) {
        QuoteHere(quote, s);
      } else {
        var k := if s[0] == quote then 2 else 1;
        NoneUpTo(quote, s, k);
        QuotedEnds(mode, quote, s[k..]);
        QuotedOn(quote, s, k, OpaqueLength(mode, s[k..]));
      }
    }
  }
}
