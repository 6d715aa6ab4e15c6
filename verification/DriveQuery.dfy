/**
 String literals in Drive search queries: how a file name is quoted, and that the quoting can be
 read back.
 */
module DriveQuery {
  import opened Basics

  const QUOTE: char := '\''
  const BACKSLASH: char := '\\'

  /** str.replace for a one-character pattern. */
  function Replace(s: string, c: char, with: string): string {
    if s == "" then "" else (if s[0] == c then with else [s[0]]) + Replace(s[1..], c, with)
  }

  /** The quoted form: backslashes are doubled first, then quotes get a backslash. */
  function Quoted(value: string): string {
    [QUOTE] + Replace(Replace(value, BACKSLASH, [BACKSLASH, BACKSLASH]), QUOTE, [BACKSLASH, QUOTE]) + [QUOTE]
  }

  /** The same in one pass. */
  function Escape(s: string): string {
    if s == "" then ""
    else (if s[0] == BACKSLASH || s[0] == QUOTE then [BACKSLASH, s[0]] else [s[0]]) + Escape(s[1..])
  }

  lemma {:induction false} ReplaceConcat(s: string, t: string, c: char, with: string)
    ensures Replace(s + t, c, with) == Replace(s, c, with) + Replace(t, c, with)
  {
    if s == "" {
      assert s + t == t;
    } else {
      assert (s + t)[1..] == s[1..] + t;
      ReplaceConcat(s[1..], t, c, with);
    }
  }

  /** Two whole-string replacements, one after the other, equal the one-pass escape. */
  lemma {:induction false} TwoPassesAreOne(s: string)
    ensures Quoted(s) == [QUOTE] + Escape(s) + [QUOTE]
  {
    PassesAgree(s);
  }

  lemma {:induction false} PassesAgree(s: string)
    ensures Replace(Replace(s, BACKSLASH, [BACKSLASH, BACKSLASH]), QUOTE, [BACKSLASH, QUOTE]) == Escape(s)
  {
    if s != "" {
      var head := if s[0] == BACKSLASH then [BACKSLASH, BACKSLASH] else [s[0]];
      var tail := Replace(s[1..], BACKSLASH, [BACKSLASH, BACKSLASH]);
      ReplaceConcat(head, tail, QUOTE, [BACKSLASH, QUOTE]);
      assert head[1..] == if s[0] == BACKSLASH then [BACKSLASH] else "";
      assert Replace(head, QUOTE, [BACKSLASH, QUOTE])
          == if s[0] == BACKSLASH || s[0] == QUOTE then [BACKSLASH, s[0]] else [s[0]];
      PassesAgree(s[1..]);
    }
  }

  datatype Token = Token(value: string, rest: string)

  /** Reading a literal after its opening quote: a backslash makes the next character plain, the
      first other quote ends the literal. */
  function Lex(t: string): Option<Token> {
    if t == "" then None
    else if t[0] == QUOTE then Some(Token("", t[1..]))
    else if t[0] == BACKSLASH then
      if |t| == 1 then None else Prepend(t[1], Lex(t[2..]))
    else Prepend(t[0], Lex(t[1..]))
  }

  function Prepend(c: char, token: Option<Token>): Option<Token> {
    match token
    case None => None
    case Some(k) => Some(Token([c] + k.value, k.rest))
  }

  /** Whatever the name and whatever follows the literal in the query, the reader gets back the name
      and stops exactly behind the closing quote. */
  lemma {:induction false} QuotedReadsBack(value: string, rest: string)
    ensures Quoted(value)[0] == QUOTE && Lex(Quoted(value)[1..] + rest) == Some(Token(value, rest))
  {
    TwoPassesAreOne(value);
    EscapeReadsBack(value, rest);
    assert Quoted(value)[1..] + rest == Escape(value) + [QUOTE] + rest;
  }

  lemma {:induction false} EscapeReadsBack(s: string, rest: string)
    ensures Lex(Escape(s) + [QUOTE] + rest) == Some(Token(s, rest))
  {
    var t := Escape(s) + [QUOTE] + rest;
    if s == "" {
      assert t[1..] == rest;
    } else {
      EscapeReadsBack(s[1..], rest);
      var n := if s[0] == BACKSLASH || s[0] == QUOTE then 2 else 1;
      assert t[n..] == Escape(s[1..]) + [QUOTE] + rest;
      assert s == [s[0]] + s[1..];
    }
  }

  /** Different names never get the same literal, not even with different text behind it. */
  lemma QuotedIsInjective(a: string, b: string, restA: string, restB: string)
    requires Quoted(a) + restA == Quoted(b) + restB
    ensures a == b && restA == restB
  {
    QuotedReadsBack(a, restA);
    QuotedReadsBack(b, restB);
    assert (Quoted(a) + restA)[1..] == Quoted(a)[1..] + restA;
    assert (Quoted(b) + restB)[1..] == Quoted(b)[1..] + restB;
  }

  /** The two replacements in the other order. */
  function OtherOrder(value: string): string {
    Replace(Replace(value, QUOTE, [BACKSLASH, QUOTE]), BACKSLASH, [BACKSLASH, BACKSLASH])
  }

  /** It as one pass: the backslash put before a quote is doubled afterwards. */
  lemma {:induction false} OtherOrderStep(s: string)
    requires s != ""
    ensures OtherOrder(s) == (if s[0] == QUOTE then [BACKSLASH, BACKSLASH, QUOTE]
                              else if s[0] == BACKSLASH then [BACKSLASH, BACKSLASH]
                              else [s[0]]) + OtherOrder(s[1..])
  {
    var rest := Replace(s[1..], QUOTE, [BACKSLASH, QUOTE]);
    if s[0] == QUOTE {
      var t := [BACKSLASH, QUOTE] + rest;
      assert Replace(s, QUOTE, [BACKSLASH, QUOTE]) == t;
      assert t[1..] == [QUOTE] + rest && ([QUOTE] + rest)[1..] == rest;
      assert Replace(t, BACKSLASH, [BACKSLASH, BACKSLASH])
          == [BACKSLASH, BACKSLASH] + Replace([QUOTE] + rest, BACKSLASH, [BACKSLASH, BACKSLASH]);
    } else {
      assert Replace(s, QUOTE, [BACKSLASH, QUOTE]) == [s[0]] + rest;
      assert ([s[0]] + rest)[1..] == rest;
    }
  }

  /** What is read of the name up to its first quote. */
  function UpToQuote(s: string): string
    requires QUOTE in s
  {
    if s[0] == QUOTE then [BACKSLASH] else [s[0]] + UpToQuote(s[1..])
  }

  lemma {:induction false} UpToQuoteDiffers(s: string)
    requires QUOTE in s
    ensures UpToQuote(s) != s
  {
    if s[0] != QUOTE {
      UpToQuoteDiffers(s[1..]);
      assert UpToQuote(s)[1..] == UpToQuote(s[1..]);
    }
  }

  lemma LexEscaped(c: char, tail: string)
    ensures Lex([BACKSLASH, c] + tail) == Prepend(c, Lex(tail))
  {
    assert ([BACKSLASH, c] + tail)[2..] == tail;
  }

  lemma LexPlain(c: char, tail: string)
    requires c != BACKSLASH && c != QUOTE
    ensures Lex([c] + tail) == Prepend(c, Lex(tail))
  {
    assert ([c] + tail)[1..] == tail;
  }

  lemma LexEnd(tail: string)
    ensures Lex([QUOTE] + tail) == Some(Token("", tail))
  {
    assert ([QUOTE] + tail)[1..] == tail;
  }

  /** The reader got the name back, or, if it has a quote, what comes before the first one. */
  ghost predicate ReadUpToQuote(s: string, token: Option<Token>, rest: string) {
    && (QUOTE !in s ==> token == Some(Token(s, rest)))
    && (QUOTE in s ==> token.Some? && token.value.value == UpToQuote(s))
  }

  lemma ReadsOneMore(s: string, token: Option<Token>, rest: string)
    requires s != "" && s[0] != QUOTE && ReadUpToQuote(s[1..], token, rest)
    ensures ReadUpToQuote(s, Prepend(s[0], token), rest)
  {
    assert s == [s[0]] + s[1..];
  }

  lemma {:induction false} OtherOrderReads(s: string, rest: string)
    ensures ReadUpToQuote(s, Lex(OtherOrder(s) + [QUOTE] + rest), rest)
  {
    if s == "" {
      LexEnd(rest);
      assert OtherOrder(s) + [QUOTE] + rest == [QUOTE] + rest;
    } else {
      var tail := OtherOrder(s[1..]) + [QUOTE] + rest;
      OtherOrderStep(s);
      OtherOrderReads(s[1..], rest);
      if s[0] == QUOTE {
        assert OtherOrder(s) + [QUOTE] + rest == [BACKSLASH, BACKSLASH] + ([QUOTE] + tail);
        LexEscaped(BACKSLASH, [QUOTE] + tail);
        LexEnd(tail);
      } else {
        ReadsOneMore(s, Lex(tail), rest);
        if s[0] == BACKSLASH {
          assert OtherOrder(s) + [QUOTE] + rest == [BACKSLASH, BACKSLASH] + tail;
          LexEscaped(BACKSLASH, tail);
        } else {
          assert OtherOrder(s) + [QUOTE] + rest == [s[0]] + tail;
          LexPlain(s[0], tail);
        }
      }
    }
  }

  /** The order of the two replacements matters: the other way round the name is read back exactly if it
      has no quote. */
  lemma OtherOrderReadsBackExactly(s: string, rest: string)
    ensures Lex(OtherOrder(s) + [QUOTE] + rest) == Some(Token(s, rest)) <==> QUOTE !in s
  {
    OtherOrderReads(s, rest);
    if QUOTE in s { UpToQuoteDiffers(s); }
  }
}
