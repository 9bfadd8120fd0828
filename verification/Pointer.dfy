/** Paths of JSON Pointer (RFC 6901) as the history text printer writes them and the cropper reads
    them: escaping, joining, splitting and array indices. */
module Pointer {
  import opened Wrappers

  // ---------------------------------------------------------------- tokens

  /** Replaces every occurrence of a character. */
  function ReplaceChar(s: string, c: char, with: string): string {
    if s == "" then "" else (if s[0] == c then with else [s[0]]) + ReplaceChar(s[1..], c, with)
  }

  /** Replaces every occurrence of a pair of characters, from the left and without overlap. */
  function ReplacePair(s: string, a: char, b: char, with: char): string {
    if s == "" then ""
    else if |s| >= 2 && s[0] == a && s[1] == b then [with] + ReplacePair(s[2..], a, b, with)
    else [s[0]] + ReplacePair(s[1..], a, b, with)
  }

  function Escape(token: string): string { ReplaceChar(ReplaceChar(token, '~', "~0"), '/', "~1") }

  function Unescape(part: string): string { ReplacePair(ReplacePair(part, '~', '1', '/'), '~', '0', '~') }

  lemma ReplaceCharHead(x: char, s: string, c: char, with: string)
    ensures ReplaceChar([x] + s, c, with) == (if x == c then with else [x]) + ReplaceChar(s, c, with)
  {
    assert ([x] + s)[1..] == s;
  }

  lemma {:induction false} ReplaceCharConcat(s: string, t: string, c: char, with: string)
    ensures ReplaceChar(s + t, c, with) == ReplaceChar(s, c, with) + ReplaceChar(t, c, with)
  {
    if s == "" {
      assert s + t == t;
    } else {
      ReplaceCharConcat(s[1..], t, c, with);
      HeadAndRest(s, t);
      ReplaceCharHead(s[0], s[1..] + t, c, with);
      ReplaceCharHead(s[0], s[1..], c, with);
      Associates(if s[0] == c then with else [s[0]], ReplaceChar(s[1..], c, with), ReplaceChar(t, c, with));
    }
  }

  lemma HeadAndRest(s: string, t: string)
    requires s != ""
    ensures s == [s[0]] + s[1..] && s + t == [s[0]] + (s[1..] + t)
  {
  }

  lemma Associates(a: string, b: string, c: string)
    ensures (a + b) + c == a + (b + c)
  {
  }

  /** One character at a time, the two replacements become one. */
  lemma EscapeHead(token: string)
    requires token != ""
    ensures Escape(token) == (if token[0] == '~' then "~0" else if token[0] == '/' then "~1" else [token[0]]) + Escape(token[1..])
  {
    var head := if token[0] == '~' then "~0" else [token[0]];
    ReplaceCharConcat(head, ReplaceChar(token[1..], '~', "~0"), '/', "~1");
    if token[0] == '~' {
      assert head[1..] == "0";
      assert ReplaceChar("0", '/', "~1") == "0";
    }
  }

  /** The text between the two passes of unescaping: only the tildes are still escaped. */
  lemma {:induction false} FirstPass(token: string)
    ensures ReplacePair(Escape(token), '~', '1', '/') == ReplaceChar(token, '~', "~0")
  {
    if token != "" {
      EscapeHead(token);
      FirstPass(token[1..]);
      var rest := Escape(token[1..]);
      if token[0] == '~' {
        assert Escape(token)[1..] == "0" + rest;
        assert Escape(token)[1..][1..] == rest;
        assert "~0" == ['~'] + ['0'];
      } else if token[0] == '/' {
        assert Escape(token)[2..] == rest;
      } else {
        assert Escape(token)[1..] == rest;
      }
    }
  }

  lemma {:induction false} SecondPass(token: string)
    ensures ReplacePair(ReplaceChar(token, '~', "~0"), '~', '0', '~') == token
  {
    if token != "" {
      SecondPass(token[1..]);
      var once := ReplaceChar(token, '~', "~0");
      if token[0] == '~' {
        assert once[2..] == ReplaceChar(token[1..], '~', "~0");
      } else {
        assert once[1..] == ReplaceChar(token[1..], '~', "~0");
      }
    }
  }

  /** Unescaping undoes escaping, for every key. */
  lemma UnescapeEscape(token: string)
    ensures Unescape(Escape(token)) == token
  {
    FirstPass(token);
    SecondPass(token);
  }

  /** An escaped token: no slash, and every tilde followed by 0 or 1. */
  predicate ValidPart(part: string) {
    part == "" || (part[0] != '/' && (if part[0] == '~' then |part| >= 2 && part[1] in "01" && ValidPart(part[2..]) else ValidPart(part[1..])))
  }

  lemma {:induction false} EscapeIsValid(token: string)
    ensures ValidPart(Escape(token))
  {
    if token != "" {
      EscapeHead(token);
      EscapeIsValid(token[1..]);
      var width := if token[0] == '~' || token[0] == '/' then 2 else 1;
      assert Escape(token)[width..] == Escape(token[1..]);
    }
  }

  lemma {:induction false} ValidPartIsEscaped(part: string) returns (token: string)
    requires ValidPart(part)
    ensures part == Escape(token)
  {
    if part == "" { return ""; }
    var width := if part[0] == '~' then 2 else 1;
    var rest := ValidPartIsEscaped(part[width..]);
    var head := if part[0] != '~' then part[0] else if part[1] == '0' then '~' else '/';
    token := [head] + rest;
    EscapeHead(token);
    assert token[1..] == rest;
    assert part == part[..width] + part[width..];
  }

  /** Escaping undoes unescaping on exactly the parts that are escaped tokens. */
  lemma EscapeUnescape(part: string)
    ensures Escape(Unescape(part)) == part <==> ValidPart(part)
  {
    EscapeIsValid(Unescape(part));
    if ValidPart(part) {
      var token := ValidPartIsEscaped(part);
      UnescapeEscape(token);
    }
  }

  // ---------------------------------------------------------------- paths

  function Print(tokens: seq<string>): string {
    if tokens == [] then "" else Print(tokens[..|tokens| - 1]) + "/" + Escape(tokens[|tokens| - 1])
  }

  function Split(s: string): (parts: seq<string>)
    ensures parts != []
  {
    if s == "" then [""]
    else
      ConsChar(s[0], Split(s[1..]))
  }

  function ConsChar(c: char, parts: seq<string>): (r: seq<string>)
    requires parts != []
    ensures r != []
  {
    if c == '/' then [""] + parts else parts[0 := [c] + parts[0]]
  }

  lemma ConsCharConcat(c: char, parts: seq<string>, more: seq<string>)
    requires parts != []
    ensures ConsChar(c, parts + more) == ConsChar(c, parts) + more
  {
  }

  function TrimSlash(path: string): string { if path != "" && path[0] == '/' then path[1..] else path }

  function Unescaped(parts: seq<string>): (tokens: seq<string>)
    ensures |tokens| == |parts|
  {
    seq(|parts|, i requires 0 <= i < |parts| => Unescape(parts[i]))
  }

  /** The tokens a path is read as. */
  function Tokens(path: string): (tokens: seq<string>)
    ensures tokens != []
  {
    Unescaped(Split(TrimSlash(path)))
  }

  lemma SplitHead(c: char, s: string)
    ensures Split([c] + s) == ConsChar(c, Split(s))
  {
    assert ([c] + s)[1..] == s;
  }

  lemma SplitLonger(c: char, s: string, whole: string, more: seq<string>)
    requires Split(whole) == Split(s) + more
    ensures Split([c] + whole) == Split([c] + s) + more
  {
    SplitHead(c, s);
    SplitHead(c, whole);
    ConsCharConcat(c, Split(s), more);
  }

  lemma {:induction false} SplitJoined(a: string, b: string)
    ensures Split(a + "/" + b) == Split(a) + Split(b)
  {
    if a == "" {
      assert (a + "/" + b)[1..] == b;
    } else {
      SplitJoined(a[1..], b);
      assert (a + "/" + b)[1..] == a[1..] + "/" + b;
      SplitLonger(a[0], a[1..], a[1..] + "/" + b, Split(b));
      assert a == [a[0]] + a[1..] && a + "/" + b == [a[0]] + (a[1..] + "/" + b);
    }
  }

  lemma {:induction false} SplitPart(part: string)
    requires ValidPart(part)
    ensures Split(part) == [part]
  {
    if part != "" {
      var rest := part[1..];
      if part[0] == '~' {
        SplitPart(part[2..]);
        assert rest[1..] == part[2..];
        PlainHead(rest);
      } else {
        SplitPart(rest);
      }
      PlainHead(part);
    }
  }

  /** A first character other than a slash joins the first part. */
  lemma PlainHead(s: string)
    requires s != "" && s[0] != '/' && Split(s[1..]) == [s[1..]]
    ensures Split(s) == [s]
  {
    assert s == [s[0]] + s[1..];
  }

  function EscapeAll(tokens: seq<string>): seq<string> { seq(|tokens|, i requires 0 <= i < |tokens| => Escape(tokens[i])) }

  lemma EscapeLast(tokens: seq<string>)
    requires tokens != []
    ensures EscapeAll(tokens) == EscapeAll(tokens[..|tokens| - 1]) + [Escape(tokens[|tokens| - 1])]
  {
  }

  lemma {:induction false} SplitPrinted(tokens: seq<string>)
    requires tokens != []
    ensures Print(tokens) != "" && Print(tokens)[0] == '/'
    ensures Split(TrimSlash(Print(tokens))) == EscapeAll(tokens)
  {
    var n := |tokens| - 1;
    EscapeIsValid(tokens[n]);
    SplitPart(Escape(tokens[n]));
    EscapeLast(tokens);
    if n == 0 {
      assert TrimSlash(Print(tokens)) == Escape(tokens[0]);
    } else {
      SplitPrinted(tokens[..n]);
      assert TrimSlash(Print(tokens)) == TrimSlash(Print(tokens[..n])) + "/" + Escape(tokens[n]);
      SplitJoined(TrimSlash(Print(tokens[..n])), Escape(tokens[n]));
    }
  }

  /** Reading a printed path gives back its tokens. */
  lemma TokensOfPrinted(tokens: seq<string>)
    requires tokens != []
    ensures Tokens(Print(tokens)) == tokens
  {
    SplitPrinted(tokens);
    forall i | 0 <= i < |tokens| ensures Tokens(Print(tokens))[i] == tokens[i] { UnescapeEscape(tokens[i]); }
  }

  /** Different token lists print differently. */
  lemma PrintIsInjective(a: seq<string>, b: seq<string>)
    ensures Print(a) == Print(b) <==> a == b
  {
    if a != [] {
      TokensOfPrinted(a);
      SplitPrinted(a);
    }
    if b != [] {
      TokensOfPrinted(b);
      SplitPrinted(b);
    }
  }

  // ---------------------------------------------------------------- array indices

  function Digit(d: nat): char
    requires d < 10
  {
    "0123456789"[d]
  }

  function Digits(n: nat): string { if n < 10 then [Digit(n)] else Digits(n / 10) + [Digit(n % 10)] }

  function ValueOf(c: char): Option<nat> { if '0' <= c <= '9' then Some(c as int - '0' as int) else None }

  function Number(s: string): Option<nat> {
    if s == "" then None
    else
      var last := ValueOf(s[|s| - 1]);
      if last.None? then None
      else if |s| == 1 then last
      else
        var high := Number(s[..|s| - 1]);
        if high.None? then None else Some(10 * high.value + last.value)
  }

  /** An optional sign and decimal digits. */
  function Atoi(s: string): Option<int> {
    var digits := if s != "" && s[0] in "+-" then s[1..] else s;
    var n := Number(digits);
    if n.None? then None
    else
      var value: int := if s[0] == '-' then 0 - n.value else n.value;
      Some(value)
  }

  predicate AllDigits(s: string) { forall i | 0 <= i < |s| :: ValueOf(s[i]).Some? }

  lemma DigitValue(d: nat)
    requires d < 10
    ensures ValueOf(Digit(d)) == Some(d)
  {
  }

  lemma AppendDigit(s: string, d: nat)
    requires s != "" && AllDigits(s) && Number(s).Some? && d < 10
    ensures AllDigits(s + [Digit(d)]) && Number(s + [Digit(d)]) == Some(10 * Number(s).value + d)
  {
    DigitValue(d);
    assert (s + [Digit(d)])[..|s|] == s;
  }

  lemma TenfoldAndRest(n: nat)
    ensures 10 * (n / 10) + n % 10 == n
  {
  }

  lemma {:induction false} NumberOfDigits(n: nat)
    ensures Digits(n) != "" && AllDigits(Digits(n)) && Number(Digits(n)) == Some(n)
  {
    if n < 10 {
      DigitValue(n);
    } else {
      NumberOfDigits(n / 10);
      AppendDigit(Digits(n / 10), n % 10);
      TenfoldAndRest(n);
    }
  }

  lemma {:induction false} EscapeOfDigits(s: string)
    requires AllDigits(s)
    ensures Escape(s) == s
  {
    if s != "" {
      EscapeHead(s);
      assert ValueOf(s[0]).Some?;
      EscapeOfDigits(s[1..]);
    }
  }

  /** A printed index reads back as itself, and needs no escaping. */
  lemma AtoiOfDigits(n: nat)
    ensures Atoi(Digits(n)) == Some(n) && Escape(Digits(n)) == Digits(n)
  {
    NumberOfDigits(n);
    EscapeOfDigits(Digits(n));
    assert ValueOf(Digits(n)[0]).Some?;
  }
}
