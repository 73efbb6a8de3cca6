/** convert/json_compat.go: Infinity, -Infinity and NaN outside quoted strings become 0, so that
    what is read afterwards is made of the numbers of section 6 of RFC 8259. */
module SanitizeJson {

  newtype Byte = x: int | 0 <= x < 256

  const QUOTE: Byte := 0x22
  const BACKSLASH: Byte := 0x5c
  const ZERO: Byte := 0x30

  /** The text of the three tokens, in ASCII. */
  const INFINITY: seq<Byte> := [0x49, 0x6e, 0x66, 0x69, 0x6e, 0x69, 0x74, 0x79]
  const NEG_INFINITY: seq<Byte> := [0x2d] + INFINITY
  const NAN: seq<Byte> := [0x4e, 0x61, 0x4e]

  predicate IsWhitespace(b: Byte) {
    b == 0x20 || b == 0x09 || b == 0x0a || b == 0x0d
  }

  /** isJSONValuePrefixBoundary: whitespace, a colon, a comma or an opening bracket. */
  predicate PrefixBoundary(b: Byte) {
    IsWhitespace(b) || b == 0x3a || b == 0x2c || b == 0x5b
  }

  /** isJSONValueSuffixBoundary: whitespace, a comma or a closing bracket or brace. */
  predicate SuffixBoundary(b: Byte) {
    IsWhitespace(b) || b == 0x2c || b == 0x5d || b == 0x7d
  }

  // ---------- positions ----------

  /** hasToken: a whole token, by the bytes on either side of it. */
  predicate HasToken(s: seq<Byte>, at: int, tok: seq<Byte>) {
    && 0 <= at && at + |tok| <= |s| && s[at..at + |tok|] == tok
    && (at > 0 ==> PrefixBoundary(s[at - 1]))
    && (at + |tok| < |s| ==> SuffixBoundary(s[at + |tok|]))
  }

  /** Where a position stands with regard to quoted strings. */
  datatype Lex = Outside | Inside(escape: bool)

  function Next(lex: Lex, c: Byte): Lex {
    match lex
    case Outside => if c == QUOTE then Inside(false) else Outside
    case Inside(true) => Inside(false)
    case Inside(false) => if c == BACKSLASH then Inside(true) else if c == QUOTE then Outside else Inside(false)
  }

  /** The state before byte k, read byte by byte from the start. */
  function LexAt(s: seq<Byte>, k: nat): Lex
    requires k <= |s|
  {
    if k == 0 then Outside else Next(LexAt(s, k - 1), s[k - 1])
  }

  predicate AnyToken(s: seq<Byte>, at: int) {
    HasToken(s, at, NEG_INFINITY) || HasToken(s, at, INFINITY) || HasToken(s, at, NAN)
  }

  /** A full token at position k, outside quoted strings. */
  predicate TokenAt(s: seq<Byte>, k: nat) {
    k < |s| && LexAt(s, k) == Outside && AnyToken(s, k)
  }

  /** The bytes of quoted strings, quotes included, in order. */
  function Quoted(s: seq<Byte>, lex: Lex): seq<Byte>
    decreases |s|
  {
    if s == [] then []
    else (if lex == Outside && s[0] != QUOTE then [] else [s[0]]) + Quoted(s[1..], Next(lex, s[0]))
  }

  // ---------- the scan ----------

  /** A token at the head of s; open is whether what precedes s lets one start. */
  predicate TokenHere(open: bool, s: seq<Byte>, tok: seq<Byte>) {
    open && |tok| <= |s| && s[..|tok|] == tok && (|tok| < |s| ==> SuffixBoundary(s[|tok|]))
  }

  /** The length of the token at the head of s, 0 when there is none. */
  function TokenLength(open: bool, s: seq<Byte>): (n: nat)
    ensures n <= |s|
  {
    if TokenHere(open, s, NEG_INFINITY) then |NEG_INFINITY|
    else if TokenHere(open, s, INFINITY) then |INFINITY|
    else if TokenHere(open, s, NAN) then |NAN|
    else 0
  }

  /** What the rest s of the input becomes. */
  function Scan(open: bool, s: seq<Byte>, lex: Lex): seq<Byte>
    decreases |s|
  {
    if s == [] then []
    else if lex == Outside && s[0] != QUOTE && TokenLength(open, s) > 0 then [ZERO] + Scan(false, s[TokenLength(open, s)..], Outside)
    else [s[0]] + Scan(PrefixBoundary(s[0]), s[1..], Next(lex, s[0]))
  }

  function Sanitized(s: seq<Byte>): seq<Byte> {
    Scan(true, s, Outside)
  }

  lemma TokenIs(s: seq<Byte>, at: nat, tok: seq<Byte>)
    requires at <= |s|
    ensures HasToken(s, at, tok) <==> TokenHere(at == 0 || PrefixBoundary(s[at - 1]), s[at..], tok)
  {
    if at + |tok| <= |s| {
      assert s[at..][..|tok|] == s[at..at + |tok|];
    }
  }

  /** Tokens end in a byte before which no other can start. */
  lemma AfterToken(s: seq<Byte>, at: nat, tok: seq<Byte>)
    requires HasToken(s, at, tok) && (tok == NEG_INFINITY || tok == INFINITY || tok == NAN)
    ensures !PrefixBoundary(s[at + |tok| - 1])
  {
    assert s[at..at + |tok|][|tok| - 1] == tok[|tok| - 1];
  }

  /** sanitizeNonFiniteJSON. */
  method Sanitize(s: seq<Byte>) returns (out: seq<Byte>)
    ensures out == Sanitized(s)
  {
    hide HasToken, Scan, PrefixBoundary;
    ScanEnd(true, Outside);
    if |s| == 0 {
      return s;
    }
    out := [];
    assert s[0..] == s;
    var inString, escape := false, false;
    var i := 0;
    while i < |s|
      invariant i <= |s| && (escape ==> inString)
      invariant Sanitized(s) == out + Scan(i == 0 || PrefixBoundary(s[i - 1]), s[i..], if inString then Inside(escape) else Outside)
    {
      var c := s[i];
      ghost var lex := if inString then Inside(escape) else Outside;
      ScanStep(s, i, lex);
      Regroup(out, [c], Scan(PrefixBoundary(s[i]), s[i + 1..], Next(lex, c)));
      if inString {
        out := out + [c];
        if escape {
          escape := false;
        } else if c == BACKSLASH {
          escape := true;
        } else if c == QUOTE {
          inString := false;
        }
        i := i + 1;
        continue;
      }
      if c == QUOTE {
        inString := true;
        out := out + [c];
        i := i + 1;
        continue;
      }
      if HasToken(s, i, NEG_INFINITY) {
        Regroup(out, [ZERO], Scan(PrefixBoundary(s[i + |NEG_INFINITY| - 1]), s[i + |NEG_INFINITY|..], Outside));
        out := out + [ZERO];
        i := i + |NEG_INFINITY|;
        continue;
      }
      if HasToken(s, i, INFINITY) {
        Regroup(out, [ZERO], Scan(PrefixBoundary(s[i + |INFINITY| - 1]), s[i + |INFINITY|..], Outside));
        out := out + [ZERO];
        i := i + |INFINITY|;
        continue;
      }
      if HasToken(s, i, NAN) {
        Regroup(out, [ZERO], Scan(PrefixBoundary(s[i + |NAN| - 1]), s[i + |NAN|..], Outside));
        out := out + [ZERO];
        i := i + |NAN|;
        continue;
      }
      out := out + [c];
      i := i + 1;
    }
    assert s[i..] == [] && out + [] == out;
    ScanEnd(i == 0 || PrefixBoundary(s[i - 1]), if inString then Inside(escape) else Outside);
  }

  lemma ScanEnd(open: bool, lex: Lex)
    ensures Scan(open, [], lex) == []
  {
  }

  lemma Regroup(a: seq<Byte>, b: seq<Byte>, c: seq<Byte>)
    ensures a + (b + c) == (a + b) + c
  {
  }

  /** One step of the scan, by position. */
  lemma ScanStep(s: seq<Byte>, i: nat, lex: Lex)
    requires i < |s|
    ensures var n := if HasToken(s, i, NEG_INFINITY) then |NEG_INFINITY| else if HasToken(s, i, INFINITY) then |INFINITY|
                     else if HasToken(s, i, NAN) then |NAN| else 0;
      && i + n <= |s|
      && Scan(i == 0 || PrefixBoundary(s[i - 1]), s[i..], lex) ==
           if lex == Outside && s[i] != QUOTE && n > 0 then [ZERO] + Scan(PrefixBoundary(s[i + n - 1]), s[i + n..], Outside)
           else [s[i]] + Scan(PrefixBoundary(s[i]), s[i + 1..], Next(lex, s[i]))
    ensures |NEG_INFINITY| > 0 && |INFINITY| > 0 && |NAN| > 0
  {
    hide Scan, HasToken, TokenHere, PrefixBoundary;
    TokenIs(s, i, NEG_INFINITY);
    TokenIs(s, i, INFINITY);
    TokenIs(s, i, NAN);
    ScanHead(i == 0 || PrefixBoundary(s[i - 1]), s[i..], lex);
    assert s[i..][1..] == s[i + 1..] && s[i..][0] == s[i];
    var n := TokenLength(i == 0 || PrefixBoundary(s[i - 1]), s[i..]);
    assert s[i..][n..] == s[i + n..];
    if HasToken(s, i, NEG_INFINITY) {
      AfterToken(s, i, NEG_INFINITY);
    } else if HasToken(s, i, INFINITY) {
      AfterToken(s, i, INFINITY);
    } else if HasToken(s, i, NAN) {
      AfterToken(s, i, NAN);
    }
  }

  // ---------- tokens are gone ----------

  /** No byte of t is a zero or a quote. */
  predicate Plain(t: seq<Byte>) {
    ZERO !in t && QUOTE !in t
  }

  lemma ScanHead(open: bool, s: seq<Byte>, lex: Lex)
    requires s != []
    ensures var n := TokenLength(open, s);
      Scan(open, s, lex) == if lex == Outside && s[0] != QUOTE && n > 0 then [ZERO] + Scan(false, s[n..], Outside)
                            else [s[0]] + Scan(PrefixBoundary(s[0]), s[1..], Next(lex, s[0]))
  {
  }

  /** A head that is neither a zero nor a quote was copied. */
  lemma CopiedHead(open: bool, s: seq<Byte>)
    requires Scan(open, s, Outside) != [] && Scan(open, s, Outside)[0] != ZERO && Scan(open, s, Outside)[0] != QUOTE
    ensures s != [] && Scan(open, s, Outside)[0] == s[0] && Scan(open, s, Outside)[1..] == Scan(PrefixBoundary(s[0]), s[1..], Outside)
  {
    if s != [] {
      ScanHead(open, s, Outside);
    }
  }

  lemma EmptyScan(open: bool, s: seq<Byte>)
    requires Scan(open, s, Outside) == []
    ensures s == []
  {
    if s != [] {
      ScanHead(open, s, Outside);
    }
  }

  lemma TakeTail(s: seq<Byte>, n: nat)
    requires 0 < n <= |s|
    ensures s[1..][..n - 1] == s[..n][1..]
  {
  }

  /** Where the output goes on with plain bytes up to a boundary, so did the input. */
  lemma {:induction false} KeptPrefix(open: bool, s: seq<Byte>, t: seq<Byte>)
    requires Plain(t) && |t| <= |Scan(open, s, Outside)| && Scan(open, s, Outside)[..|t|] == t
    requires |t| < |Scan(open, s, Outside)| ==> SuffixBoundary(Scan(open, s, Outside)[|t|])
    ensures |t| <= |s| && s[..|t|] == t && (|t| < |s| ==> SuffixBoundary(s[|t|]))
    decreases |t|
  {
    hide Scan;
    var out := Scan(open, s, Outside);
    if t == [] {
      if out == [] {
        EmptyScan(open, s);
      } else {
        CopiedHead(open, s);
      }
    } else {
      assert out[0] == out[..|t|][0] == t[0] && t[0] in t;
      CopiedHead(open, s);
      TakeTail(out, |t|);
      KeptPrefix(PrefixBoundary(s[0]), s[1..], t[1..]);
      assert s[..|t|] == [s[0]] + s[1..][..|t| - 1];
    }
  }

  /** A plain token at the head of the output would have been one at the head of the input. */
  lemma NoTokenHere(open: bool, s: seq<Byte>, tok: seq<Byte>)
    requires Plain(tok) && TokenHere(open, Scan(open, s, Outside), tok)
    ensures TokenHere(open, s, tok)
  {
    KeptPrefix(open, s, tok);
  }

  lemma TokensPlain()
    ensures Plain(NEG_INFINITY) && Plain(INFINITY) && Plain(NAN)
    ensures NEG_INFINITY != [] && INFINITY != [] && NAN != []
  {
  }

  /** The head of what the scan leaves is never a token. */
  lemma NoLengthHere(open: bool, s: seq<Byte>)
    ensures TokenLength(open, Scan(open, s, Outside)) == 0
  {
    hide Scan, TokenHere;
    TokensPlain();
    var out := Scan(open, s, Outside);
    if TokenLength(open, out) > 0 {
      var tok := if TokenHere(open, out, NEG_INFINITY) then NEG_INFINITY
                 else if TokenHere(open, out, INFINITY) then INFINITY else NAN;
      NoTokenHere(open, s, tok);
      HeadIsToken(open, s, tok);
      HeadOf(open, out, tok);
      assert false;
    }
  }

  lemma HeadOf(open: bool, s: seq<Byte>, tok: seq<Byte>)
    requires TokenHere(open, s, tok) && tok != []
    ensures s != [] && s[0] == tok[0]
  {
    assert s[..|tok|][0] == tok[0];
  }

  /** A token at the head is replaced. */
  lemma HeadIsToken(open: bool, s: seq<Byte>, tok: seq<Byte>)
    requires TokenHere(open, s, tok) && (tok == NEG_INFINITY || tok == INFINITY || tok == NAN)
    ensures Scan(open, s, Outside) != [] && Scan(open, s, Outside)[0] == ZERO
  {
    HeadOf(open, s, tok);
  }

  /** No token in the rest s of a text. */
  predicate NoneFrom(open: bool, s: seq<Byte>, lex: Lex)
    decreases |s|
  {
    s == [] || ((lex == Outside && s[0] != QUOTE ==> TokenLength(open, s) == 0)
                && NoneFrom(PrefixBoundary(s[0]), s[1..], Next(lex, s[0])))
  }

  lemma {:induction false} ScanLeavesNone(open: bool, s: seq<Byte>, lex: Lex)
    ensures NoneFrom(open, Scan(open, s, lex), lex)
    decreases |s|
  {
    hide Scan, TokenHere, TokenLength;
    if s == [] {
      ScanEnd(open, lex);
    } else {
      ScanHead(open, s, lex);
      var out, n := Scan(open, s, lex), TokenLength(open, s);
      if lex == Outside {
        NoLengthHere(open, s);
      }
      if lex == Outside && s[0] != QUOTE && n > 0 {
        assert out[1..] == Scan(false, s[n..], Outside);
        ScanLeavesNone(false, s[n..], Outside);
      } else {
        assert out[1..] == Scan(PrefixBoundary(s[0]), s[1..], Next(lex, s[0]));
        ScanLeavesNone(PrefixBoundary(s[0]), s[1..], Next(lex, s[0]));
      }
    }
  }

  /** A scan that finds no token changes nothing, and one that finds any shortens the text. */
  lemma {:induction false} ScanShrinks(open: bool, s: seq<Byte>, lex: Lex)
    ensures |Scan(open, s, lex)| <= |s|
    ensures if NoneFrom(open, s, lex) then Scan(open, s, lex) == s else |Scan(open, s, lex)| < |s|
    decreases |s|
  {
    hide TokenHere;
    if s != [] {
      var n := TokenLength(open, s);
      TokensLong();
      if lex == Outside && s[0] != QUOTE && n > 0 {
        ScanShrinks(false, s[n..], Outside);
      } else {
        ScanShrinks(PrefixBoundary(s[0]), s[1..], Next(lex, s[0]));
      }
    }
  }

  lemma TokensLong()
    ensures 1 < |NEG_INFINITY| && 1 < |INFINITY| && 1 < |NAN|
  {
  }

  // ---------- by position ----------

  predicate OpenAt(s: seq<Byte>, k: nat)
    requires k <= |s|
  {
    k == 0 || PrefixBoundary(s[k - 1])
  }

  lemma TokenLengthAt(s: seq<Byte>, k: nat)
    requires k < |s|
    ensures TokenLength(OpenAt(s, k), s[k..]) > 0 <==> AnyToken(s, k)
    ensures AnyToken(s, k) ==> s[k] != QUOTE
  {
    TokenIs(s, k, NEG_INFINITY);
    TokenIs(s, k, INFINITY);
    TokenIs(s, k, NAN);
    TokensLong();
    TokensPlain();
    if AnyToken(s, k) {
      var tok := if HasToken(s, k, NEG_INFINITY) then NEG_INFINITY else if HasToken(s, k, INFINITY) then INFINITY else NAN;
      assert s[k] == s[k..k + |tok|][0] == tok[0];
      assert tok[0] in tok;
    }
  }

  lemma {:induction false} NoneFromAt(s: seq<Byte>, k: nat)
    requires k <= |s|
    ensures NoneFrom(OpenAt(s, k), s[k..], LexAt(s, k)) <==> forall j :: k <= j < |s| ==> !TokenAt(s, j)
    decreases |s| - k
  {
    hide AnyToken, TokenLength;
    if k < |s| {
      NoneFromAt(s, k + 1);
      TokenLengthAt(s, k);
      assert s[k..][1..] == s[k + 1..] && s[k..][0] == s[k];
      assert TokenAt(s, k) <==> LexAt(s, k) == Outside && s[k] != QUOTE && TokenLength(OpenAt(s, k), s[k..]) > 0;
    }
  }

  /** Complete: no full token is left outside quoted strings. */
  lemma SanitizedHasNoToken(s: seq<Byte>, k: nat)
    ensures !TokenAt(Sanitized(s), k)
  {
    var out := Sanitized(s);
    ScanLeavesNone(true, s, Outside);
    assert out[0..] == out;
    NoneFromAt(out, 0);
  }

  /** Only tokens are touched: the text stays as it is exactly when it has none. */
  lemma SanitizedSame(s: seq<Byte>)
    ensures Sanitized(s) == s <==> forall k :: 0 <= k < |s| ==> !TokenAt(s, k)
  {
    ScanShrinks(true, s, Outside);
    assert s[0..] == s;
    NoneFromAt(s, 0);
  }

  lemma SanitizedIdempotent(s: seq<Byte>)
    ensures Sanitized(Sanitized(s)) == Sanitized(s)
  {
    ScanLeavesNone(true, s, Outside);
    ScanShrinks(true, Sanitized(s), Outside);
  }

  // ---------- strings are kept ----------

  /** Bytes without a quote add nothing outside strings. */
  lemma {:induction false} QuotedSkips(s: seq<Byte>, n: nat)
    requires n <= |s| && forall k :: 0 <= k < n ==> s[k] != QUOTE
    ensures Quoted(s, Outside) == Quoted(s[n..], Outside)
    decreases n
  {
    if n > 0 {
      QuotedSkips(s[1..], n - 1);
      assert s[1..][n - 1..] == s[n..];
    } else {
      assert s[0..] == s;
    }
  }

  lemma TokenUnquoted(open: bool, s: seq<Byte>)
    ensures forall k :: 0 <= k < TokenLength(open, s) ==> s[k] != QUOTE
  {
    TokensPlain();
    var tok := if TokenHere(open, s, NEG_INFINITY) then NEG_INFINITY else if TokenHere(open, s, INFINITY) then INFINITY else NAN;
    forall k | 0 <= k < TokenLength(open, s) ensures s[k] != QUOTE {
      assert s[k] == s[..|tok|][k] && tok[k] in tok;
    }
  }

  lemma {:induction false} ScanKeepsQuoted(open: bool, s: seq<Byte>, lex: Lex)
    ensures Quoted(Scan(open, s, lex), lex) == Quoted(s, lex)
    decreases |s|
  {
    hide Scan, TokenLength;
    if s == [] {
      ScanEnd(open, lex);
    } else {
      ScanHead(open, s, lex);
      var out, n := Scan(open, s, lex), TokenLength(open, s);
      if lex == Outside && s[0] != QUOTE && n > 0 {
        assert out[1..] == Scan(false, s[n..], Outside);
        ScanKeepsQuoted(false, s[n..], Outside);
        TokenUnquoted(open, s);
        QuotedSkips(s, n);
        QuotedSkips(out, 1);
      } else {
        assert out[1..] == Scan(PrefixBoundary(s[0]), s[1..], Next(lex, s[0]));
        ScanKeepsQuoted(PrefixBoundary(s[0]), s[1..], Next(lex, s[0]));
      }
    }
  }

  /** Every byte of a quoted string is kept, and in order. */
  lemma SanitizedKeepsStrings(s: seq<Byte>)
    ensures Quoted(Sanitized(s), Outside) == Quoted(s, Outside)
  {
    ScanKeepsQuoted(true, s, Outside);
  }

  // ---------- what a token becomes ----------

  /** The first token of a text is n bytes long and k bytes on. */
  predicate FirstToken(open: bool, s: seq<Byte>, lex: Lex, k: nat, n: nat)
    decreases k
  {
    s != [] &&
    if k == 0 then lex == Outside && s[0] != QUOTE && TokenLength(open, s) == n && 0 < n
    else
      && (lex == Outside && s[0] != QUOTE ==> TokenLength(open, s) == 0)
      && FirstToken(PrefixBoundary(s[0]), s[1..], Next(lex, s[0]), k - 1, n)
  }

  lemma {:induction false} FirstInside(open: bool, s: seq<Byte>, lex: Lex, k: nat, n: nat)
    requires FirstToken(open, s, lex, k, n)
    ensures k + n <= |s| && 0 < n
    decreases k
  {
    hide TokenHere;
    if k > 0 {
      FirstInside(PrefixBoundary(s[0]), s[1..], Next(lex, s[0]), k - 1, n);
    }
  }

  lemma TokenCarries(open: bool, s: seq<Byte>, t: seq<Byte>, k: nat, tok: seq<Byte>)
    requires 0 < k <= |s| && k < |t| && s[..k] == t[..k] && t[k] == ZERO && Plain(tok) && TokenHere(open, t, tok)
    ensures TokenHere(open, s, tok)
  {
    if |tok| <= k {
      assert s[..|tok|] == s[..k][..|tok|] == t[..k][..|tok|] == t[..|tok|];
      if |tok| < k {
        assert s[..k][|tok|] == t[..k][|tok|];
      }
    }
  }

  /** A zero in place of what comes k bytes on makes no token start earlier. */
  lemma ZeroOpensNone(open: bool, s: seq<Byte>, t: seq<Byte>, k: nat)
    requires 0 < k <= |s| && k < |t| && s[..k] == t[..k] && t[k] == ZERO && TokenLength(open, s) == 0
    ensures TokenLength(open, t) == 0
  {
    TokensPlain();
    hide TokenHere, Plain;
    if TokenHere(open, t, NEG_INFINITY) {
      TokenCarries(open, s, t, k, NEG_INFINITY);
    } else if TokenHere(open, t, INFINITY) {
      TokenCarries(open, s, t, k, INFINITY);
    } else if TokenHere(open, t, NAN) {
      TokenCarries(open, s, t, k, NAN);
    }
  }

  lemma {:induction false} ZeroInstead(open: bool, s: seq<Byte>, lex: Lex, k: nat, n: nat)
    requires FirstToken(open, s, lex, k, n) && k + n <= |s|
    ensures Scan(open, s, lex) == Scan(open, s[..k] + [ZERO] + s[k + n..], lex)
    decreases k
  {
    hide TokenHere, TokenLength, Scan;
    var t := s[..k] + [ZERO] + s[k + n..];
    ScanHead(open, s, lex);
    ScanHead(open, t, lex);
    if k == 0 {
      assert t == [ZERO] + s[n..] && t[1..] == s[n..];
      NoTokenAtZero(open, t);
    } else {
      assert t[1..] == s[1..][..k - 1] + [ZERO] + s[1..][k - 1 + n..];
      ZeroInstead(PrefixBoundary(s[0]), s[1..], Next(lex, s[0]), k - 1, n);
      if lex == Outside && s[0] != QUOTE {
        assert s[..k] == t[..k];
        ZeroOpensNone(open, s, t, k);
      }
    }
  }

  lemma HeadDiffers(open: bool, s: seq<Byte>, tok: seq<Byte>)
    requires tok != [] && s != [] && s[0] != tok[0]
    ensures !TokenHere(open, s, tok)
  {
    if |tok| <= |s| {
      assert s[..|tok|][0] == s[0];
    }
  }

  lemma NoTokenAtZero(open: bool, t: seq<Byte>)
    requires t != [] && t[0] == ZERO
    ensures TokenLength(open, t) == 0
  {
    assert NEG_INFINITY[0] == 0x2d && INFINITY[0] == 0x49 && NAN[0] == 0x4e;
    hide TokenHere;
    HeadDiffers(open, t, NEG_INFINITY);
    HeadDiffers(open, t, INFINITY);
    HeadDiffers(open, t, NAN);
  }

  lemma {:induction false} FirstTokenAt(s: seq<Byte>, i: nat, k: nat, n: nat)
    requires i <= k < |s| && TokenAt(s, k) && forall j :: i <= j < k ==> !TokenAt(s, j)
    requires n == TokenLength(OpenAt(s, k), s[k..])
    ensures FirstToken(OpenAt(s, i), s[i..], LexAt(s, i), k - i, n)
    decreases k - i
  {
    hide AnyToken, TokenLength, LexAt;
    TokenLengthAt(s, i);
    assert s[i..] != [] && s[i..][0] == s[i];
    if i < k {
      assert s[i..][1..] == s[i + 1..] && k - i - 1 == k - (i + 1);
      FirstTokenAt(s, i + 1, k, n);
      LexStep(s, i);
      assert !TokenAt(s, i) && OpenAt(s, i + 1) == PrefixBoundary(s[i]);
    }
  }

  lemma LexStep(s: seq<Byte>, i: nat)
    requires i < |s|
    ensures LexAt(s, i + 1) == Next(LexAt(s, i), s[i])
  {
  }

  /** A full token becomes the digit 0: with the first one so replaced, the text is sanitized to the same.
      Together with SanitizedSame this says what becomes of every text. */
  lemma FirstTokenIsZero(s: seq<Byte>, k: nat, tok: seq<Byte>)
    requires k < |s| && LexAt(s, k) == Outside && (tok == NEG_INFINITY || tok == INFINITY || tok == NAN) && HasToken(s, k, tok)
    requires forall j :: 0 <= j < k ==> !TokenAt(s, j)
    ensures Sanitized(s) == Sanitized(s[..k] + [0x30] + s[k + |tok|..])
  {
    assert AnyToken(s, k);
    TokenIs(s, k, tok);
    hide HasToken, TokenHere, TokenLength, LexAt, Scan, FirstToken;
    OneToken(OpenAt(s, k), s[k..], tok);
    FirstTokenAt(s, 0, k, |tok|);
    assert s[0..] == s;
    ZeroInstead(true, s, Outside, k, |tok|);
  }

  /** No two of the tokens can start at one place. */
  lemma OneToken(open: bool, s: seq<Byte>, tok: seq<Byte>)
    requires TokenHere(open, s, tok) && (tok == NEG_INFINITY || tok == INFINITY || tok == NAN)
    ensures TokenLength(open, s) == |tok|
  {
    assert s[0] == s[..|tok|][0] == tok[0];
    assert |NEG_INFINITY| == 9 && |INFINITY| == 8 && |NAN| == 3;
  }
}
