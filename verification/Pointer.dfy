/** JSON pointers (RFC 6901) as the patch engine reads them. */
module Pointer {
  import opened Json
  import opened Wrappers

  const MAX_POINTER_BYTES: nat := 4096

  // ---------------------------------------------------------------------------------------------
  // Reading: split at slashes, then undo the two escapes of every token
  // ---------------------------------------------------------------------------------------------

  function Split(s: string): (r: seq<string>)
    ensures |r| > 0
  {
    if s == [] then [[]]
    else
      var rest := Split(s[1..]);
      if s[0] == '/' then [[]] + rest else [[s[0]] + rest[0]] + rest[1..]
  }

  function Unescape(s: string): Option<string> {
    if s == [] then Some([])
    else if s[0] != '~' then
      var rest := Unescape(s[1..]);
      if rest.Some? then Some([s[0]] + rest.value) else None
    else if |s| > 1 && (s[1] == '0' || s[1] == '1') then
      var rest := Unescape(s[2..]);
      if rest.Some? then Some([if s[1] == '0' then '~' else '/'] + rest.value) else None
    else None
  }

  function UnescapeAll(pieces: seq<string>): Option<seq<string>> {
    if pieces == [] then Some([])
    else
      var first, rest := Unescape(pieces[0]), UnescapeAll(pieces[1..]);
      if first.Some? && rest.Some? then Some([first.value] + rest.value) else None
  }

  /** The tokens of a pointer, or none when it is not one. */
  function Tokens(path: string): Option<seq<string>> {
    if path == [] then Some([])
    else if path[0] != '/' || Bytes(path) > MAX_POINTER_BYTES then None
    else UnescapeAll(Split(path[1..]))
  }

  /** A result still to be prefixed by what was decoded before it. */
  function Prefixed(done: string, rest: Option<string>): Option<string> {
    if rest.Some? then Some(done + rest.value) else None
  }

  lemma {:induction false} PrefixedByNothing(rest: Option<string>)
    ensures Prefixed([], rest) == rest
  {
    if rest.Some? {
      assert [] + rest.value == rest.value;
    }
  }

  lemma {:induction false} PrefixedTwice(done: string, c: char, rest: Option<string>)
    ensures Prefixed(done, Prefixed([c], rest)) == Prefixed(done + [c], rest)
  {
    if rest.Some? {
      assert done + ([c] + rest.value) == done + [c] + rest.value;
    }
  }

  /** One token, character by character. */
  method DecodeToken(token: string) returns (r: Option<string>)
    ensures r == Unescape(token)
  {
    var decoded, i := "", 0;
    assert token[0..] == token;
    PrefixedByNothing(Unescape(token));
    while i < |token|
      invariant i <= |token|
      invariant Unescape(token) == Prefixed(decoded, Unescape(token[i..]))
    {
      var ch := token[i];
      ghost var here := token[i..];
      assert here[0] == ch && here[1..] == token[i + 1..];
      if ch != '~' {
        PrefixedTwice(decoded, ch, Unescape(here[1..]));
        decoded := decoded + [ch];
        i := i + 1;
        continue;
      }
      if i + 1 < |token| && (token[i + 1] == '0' || token[i + 1] == '1') {
        assert here[1] == token[i + 1] && here[2..] == token[i + 2..];
        var plain := if token[i + 1] == '0' then '~' else '/';
        PrefixedTwice(decoded, plain, Unescape(here[2..]));
        decoded := decoded + [plain];
        i := i + 2;
      } else {
        return None;
      }
    }
    assert token[i..] == [] && decoded + [] == decoded;
    return Some(decoded);
  }

  method ParsePointer(path: string) returns (r: Option<seq<string>>)
    ensures r == Tokens(path)
  {
    if path == [] {
      return Some([]);
    }
    if path[0] != '/' || Bytes(path) > MAX_POINTER_BYTES {
      return None;
    }
    var pieces := Split(path[1..]);
    var tokens: seq<string> := [];
    for i := 0 to |pieces|
      invariant UnescapeAll(pieces[..i]) == Some(tokens)
    {
      assert pieces[..i + 1][..i] == pieces[..i];
      UnescapeAllSnoc(pieces[..i + 1]);
      var token := DecodeToken(pieces[i]);
      if token.None? {
        UnescapeAllFails(pieces, i);
        return None;
      }
      tokens := tokens + [token.value];
    }
    assert pieces[..|pieces|] == pieces;
    return Some(tokens);
  }

  lemma {:induction false} UnescapeAllSnoc(pieces: seq<string>)
    requires pieces != []
    ensures var front, last := UnescapeAll(pieces[..|pieces| - 1]), Unescape(pieces[|pieces| - 1]);
            UnescapeAll(pieces) == if front.Some? && last.Some? then Some(front.value + [last.value]) else None
  {
    if |pieces| > 1 {
      var front := pieces[..|pieces| - 1];
      UnescapeAllSnoc(pieces[1..]);
      assert pieces[1..][..|pieces| - 2] == front[1..] && front[0] == pieces[0];
      var first, mid, last := Unescape(pieces[0]), UnescapeAll(front[1..]), Unescape(pieces[|pieces| - 1]);
      if first.Some? && mid.Some? && last.Some? {
        assert [first.value] + (mid.value + [last.value]) == ([first.value] + mid.value) + [last.value];
      }
    } else {
      var first := Unescape(pieces[0]);
      assert pieces[..0] == [] && pieces[1..] == [];
      if first.Some? {
        assert [first.value] + [] == [] + [first.value];
      }
    }
  }

  lemma {:induction false} UnescapeAllFails(pieces: seq<string>, i: nat)
    requires i < |pieces| && Unescape(pieces[i]).None?
    ensures UnescapeAll(pieces).None?
  {
    if i > 0 {
      UnescapeAllFails(pieces[1..], i - 1);
    }
  }

  // ---------------------------------------------------------------------------------------------
  // Writing: the reference definition
  // ---------------------------------------------------------------------------------------------

  function EscapeChar(c: char): string {
    if c == '~' then "~0" else if c == '/' then "~1" else [c]
  }

  function Escape(token: string): string {
    if token == [] then [] else EscapeChar(token[0]) + Escape(token[1..])
  }

  function Encode(tokens: seq<string>): string {
    if tokens == [] then [] else "/" + Escape(tokens[0]) + Encode(tokens[1..])
  }

  ghost predicate SlashFree(s: string) {
    forall i :: 0 <= i < |s| ==> s[i] != '/'
  }

  lemma {:induction false} EscapeIsSlashFree(token: string)
    ensures SlashFree(Escape(token))
  {
    if token != [] {
      EscapeIsSlashFree(token[1..]);
    }
  }

  lemma {:induction false} UnescapeEscape(token: string)
    ensures Unescape(Escape(token)) == Some(token)
  {
    if token != [] {
      UnescapeEscape(token[1..]);
      var e, n := Escape(token), |EscapeChar(token[0])|;
      assert e[..n] == EscapeChar(token[0]) && e[n..] == Escape(token[1..]);
      assert n > 1 ==> e[1] == EscapeChar(token[0])[1];
      assert [token[0]] + token[1..] == token;
    }
  }

  lemma {:induction false} EscapeUnescape(s: string)
    requires Unescape(s).Some? && SlashFree(s)
    ensures Escape(Unescape(s).value) == s
  {
    if s != [] {
      var n := if s[0] == '~' then 2 else 1;
      EscapeUnescape(s[n..]);
      var token := Unescape(s).value;
      assert token[1..] == Unescape(s[n..]).value;
      assert s == s[..n] + s[n..];
    }
  }

  /** Splitting finds exactly the slashes between slash-free pieces. */
  lemma {:induction false} SplitJoin(piece: string, rest: string)
    requires SlashFree(piece)
    ensures Split(piece + "/" + rest) == [piece] + Split(rest)
  {
    var all := piece + "/" + rest;
    if piece == [] {
      assert all[1..] == rest;
    } else {
      SplitJoin(piece[1..], rest);
      assert all[0] == piece[0] && all[1..] == piece[1..] + "/" + rest;
      assert ([piece[1..]] + Split(rest))[1..] == Split(rest);
      assert [piece[0]] + piece[1..] == piece;
    }
  }

  lemma {:induction false} SplitSlashFree(piece: string)
    requires SlashFree(piece)
    ensures Split(piece) == [piece]
  {
    if piece != [] {
      SplitSlashFree(piece[1..]);
      assert [piece[0]] + piece[1..] == piece && [piece[1..]][1..] == [];
    }
  }

  /** The pieces between slashes, each behind its slash. */
  function Joined(pieces: seq<string>): string {
    if pieces == [] then [] else "/" + pieces[0] + Joined(pieces[1..])
  }

  lemma {:induction false} SplitPieces(s: string)
    ensures forall p :: p in Split(s) ==> SlashFree(p)
    ensures Joined(Split(s)) == "/" + s
  {
    if s != [] {
      SplitPieces(s[1..]);
      var rest, pieces := Split(s[1..]), Split(s);
      if s[0] == '/' {
        assert pieces[1..] == rest;
        assert "/" + [] + ("/" + s[1..]) == "/" + s;
      } else {
        assert pieces[1..] == rest[1..];
        ConsPiece(s, rest[0], Joined(rest[1..]));
        assert SlashFree(rest[0]) && SlashFree(pieces[0]);
        forall p | p in pieces ensures SlashFree(p) {
          assert p == pieces[0] || p in rest;
        }
      }
    } else {
      var none: seq<string> := [[]];
      assert none[1..] == [];
    }
  }

  lemma {:induction false} ConsPiece(s: string, piece: string, rest: string)
    requires s != [] && "/" + s[1..] == "/" + piece + rest
    ensures "/" + ([s[0]] + piece) + rest == "/" + s
  {
    assert ("/" + s[1..])[1..] == s[1..] && ("/" + piece + rest)[1..] == piece + rest;
    assert s == [s[0]] + s[1..];
    assert [s[0]] + (piece + rest) == ([s[0]] + piece) + rest;
  }

  lemma {:induction false} EncodeUnescapeAll(pieces: seq<string>)
    requires UnescapeAll(pieces).Some? && forall p :: p in pieces ==> SlashFree(p)
    ensures Encode(UnescapeAll(pieces).value) == Joined(pieces)
  {
    if pieces != [] {
      EscapeUnescape(pieces[0]);
      EncodeUnescapeAll(pieces[1..]);
      assert UnescapeAll(pieces).value[1..] == UnescapeAll(pieces[1..]).value;
    }
  }

  lemma {:induction false} UnescapeAllCons(first: string, rest: seq<string>)
    requires Unescape(first).Some? && UnescapeAll(rest).Some?
    ensures UnescapeAll([first] + rest) == Some([Unescape(first).value] + UnescapeAll(rest).value)
  {
    assert ([first] + rest)[1..] == rest;
  }

  /** What follows the leading slash. */
  function Body(tokens: seq<string>): string
    requires tokens != []
  {
    if |tokens| == 1 then Escape(tokens[0]) else Escape(tokens[0]) + "/" + Body(tokens[1..])
  }

  lemma {:induction false} EncodeBody(tokens: seq<string>)
    requires tokens != []
    ensures Encode(tokens) == "/" + Body(tokens)
  {
    var first := Escape(tokens[0]);
    if |tokens| == 1 {
      assert tokens[1..] == [];
    } else {
      EncodeBody(tokens[1..]);
      assert "/" + first + ("/" + Body(tokens[1..])) == "/" + (first + "/" + Body(tokens[1..]));
    }
  }

  lemma {:induction false} SplitBody(tokens: seq<string>)
    requires tokens != []
    ensures UnescapeAll(Split(Body(tokens))) == Some(tokens)
  {
    var first, rest := Escape(tokens[0]), tokens[1..];
    EscapeIsSlashFree(tokens[0]);
    UnescapeEscape(tokens[0]);
    assert [tokens[0]] + rest == tokens;
    if rest == [] {
      SplitSlashFree(first);
      UnescapeAllCons(first, []);
      assert [first] + [] == [first];
    } else {
      SplitBody(rest);
      SplitJoin(first, Body(rest));
      UnescapeAllCons(first, Split(Body(rest)));
    }
  }

  /** A token list is read back from the pointer that writes it, up to the length limit. */
  lemma {:induction false} TokensOfEncode(tokens: seq<string>)
    ensures Tokens(Encode(tokens)) == if Bytes(Encode(tokens)) <= MAX_POINTER_BYTES then Some(tokens) else None
  {
    if tokens != [] {
      EncodeBody(tokens);
      SplitBody(tokens);
    }
  }

  /** And a pointer is the only writing of its tokens. */
  lemma {:induction false} EncodeOfTokens(path: string)
    requires Tokens(path).Some?
    ensures Encode(Tokens(path).value) == path
  {
    if path != [] {
      SplitPieces(path[1..]);
      EncodeUnescapeAll(Split(path[1..]));
      assert path == "/" + path[1..];
    }
  }

  // ---------------------------------------------------------------------------------------------
  // The textual prefix test of the move operation
  // ---------------------------------------------------------------------------------------------

  lemma {:induction false} EncodeJoin(a: seq<string>, b: seq<string>)
    ensures Encode(a + b) == Encode(a) + Encode(b)
  {
    if a == [] {
      assert a + b == b;
    } else {
      EncodeJoin(a[1..], b);
      assert (a + b)[1..] == a[1..] + b;
      assert "/" + Escape(a[0]) + (Encode(a[1..]) + Encode(b)) == "/" + Escape(a[0]) + Encode(a[1..]) + Encode(b);
    }
  }

  lemma {:induction false} EscapeInjective(a: string, b: string)
    requires Escape(a) == Escape(b)
    ensures a == b
  {
    UnescapeEscape(a);
    UnescapeEscape(b);
  }

  /** Two slash-free words in front of a slash, one text a prefix of the other: the same word. */
  lemma {:induction false} SameWord(a: string, x: string, b: string, y: string)
    requires SlashFree(a) && SlashFree(b)
    requires x != [] && x[0] == '/' && (y == [] || y[0] == '/')
    requires a + x <= b + y
    ensures a == b && x <= y
  {
    assert (a + x)[0] == (b + y)[0];
    if a != [] {
      assert b != [];
      assert (a + x)[1..] == a[1..] + x && (b + y)[1..] == b[1..] + y;
      SameWord(a[1..], x, b[1..], y);
      assert a == [a[0]] + a[1..] && b == [b[0]] + b[1..];
    } else {
      assert a + x == x && b == [] && b + y == y;
    }
  }

  lemma {:induction false} EncodedPrefix(from: seq<string>, path: seq<string>)
    requires Encode(from) + "/" <= Encode(path)
    ensures from <= path && from != path
  {
    if from != [] {
      assert Encode(path)[0] == (Encode(from) + "/")[0];
      assert path != [];
      var a, b := Escape(from[0]), Escape(path[0]);
      var x, y := Encode(from[1..]) + "/", Encode(path[1..]);
      EscapeIsSlashFree(from[0]);
      EscapeIsSlashFree(path[0]);
      assert (Encode(from) + "/")[1..] == a + x && Encode(path)[1..] == b + y;
      SameWord(a, x, b, y);
      EscapeInjective(from[0], path[0]);
      EncodedPrefix(from[1..], path[1..]);
    }
  }

  /** The guard on texts says exactly that one location lies strictly inside the other. */
  lemma {:induction false} PrefixGuard(from: string, path: string)
    requires Tokens(from).Some? && Tokens(path).Some?
    ensures from + "/" <= path <==> Tokens(from).value <= Tokens(path).value && Tokens(from) != Tokens(path)
  {
    var f, p := Tokens(from).value, Tokens(path).value;
    EncodeOfTokens(from);
    EncodeOfTokens(path);
    if from + "/" <= path {
      EncodedPrefix(f, p);
    }
    if f <= p && f != p {
      EncodeJoin(f, p[|f|..]);
      assert p == f + p[|f|..];
    }
  }

  // ---------------------------------------------------------------------------------------------
  // Array indices
  // ---------------------------------------------------------------------------------------------

  const USIZE_MAX: nat := 0xFFFF_FFFF_FFFF_FFFF

  predicate AllDigits(s: string) {
    forall i :: 0 <= i < |s| ==> '0' <= s[i] <= '9'
  }

  function DigitsValue(s: string): nat
    requires AllDigits(s)
  {
    if s == [] then 0 else 10 * DigitsValue(s[..|s| - 1]) + (s[|s| - 1] as int - '0' as int)
  }

  /** A token that names an array position: no sign, no leading zero, within a 64-bit `usize`. */
  function ArrayIndex(token: string): Option<nat> {
    if token == "0" then Some(0)
    else if token != [] && token[0] != '0' && AllDigits(token) && DigitsValue(token) <= USIZE_MAX then
      Some(DigitsValue(token))
    else None
  }

  function Digit(n: nat): char
    requires n < 10
  {
    n as char + '0'
  }

  function Decimal(n: nat): (r: string)
    ensures r != [] && AllDigits(r)
  {
    if n < 10 then [Digit(n)] else Decimal(n / 10) + [Digit(n % 10)]
  }

  lemma {:induction false} DecimalValue(n: nat)
    ensures DigitsValue(Decimal(n)) == n
    ensures n > 0 ==> Decimal(n)[0] != '0'
  {
    var d := Decimal(n);
    if n >= 10 {
      DecimalValue(n / 10);
      assert d[..|d| - 1] == Decimal(n / 10);
    } else {
      assert d[..0] == [];
    }
  }

  lemma {:induction false} ValueDecimal(s: string)
    requires s != [] && AllDigits(s) && s[0] != '0'
    ensures DigitsValue(s) > 0 && Decimal(DigitsValue(s)) == s
  {
    var front := s[..|s| - 1];
    if front == [] {
      assert DigitsValue(front) == 0;
      assert s == [s[0]];
    } else {
      ValueDecimal(front);
      assert DigitsValue(s) / 10 == DigitsValue(front);
      assert s == front + [s[|s| - 1]];
    }
  }

  /** Positions and their tokens correspond one to one. */
  lemma {:induction false} IndexOfDecimal(n: nat)
    ensures ArrayIndex(Decimal(n)) == if n <= USIZE_MAX then Some(n) else None
  {
    DecimalValue(n);
    if n > 0 {
      assert "0"[0] == '0';
    }
  }

  lemma {:induction false} DecimalOfIndex(token: string)
    requires ArrayIndex(token).Some?
    ensures Decimal(ArrayIndex(token).value) == token
  {
    if token != "0" {
      ValueDecimal(token);
    }
  }
}
