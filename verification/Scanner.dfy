/**
 The language of command lines, written down character by character without an automaton; with the shipped table and
 accepting states the lexer reads exactly this language.
 */
module Scanner {
  import opened Packages
  import opened Dfsa
  import opened Lexing
  import opened CommandText

  datatype Class = Blanks | Letters | Digits | Quotable

  predicate Is(class_: Class, c: char) {
    match class_
    case Blanks => c == ' ' || c == '\n'
    case Letters => 'a' <= c <= 'z' || 'A' <= c <= 'Z'
    case Digits => '0' <= c <= '9'
    case Quotable => c != '"' && c != '-'
  }

  /** How many characters of a class the text begins with. */
  function Span(class_: Class, s: string): (n: nat)
    ensures n <= |s| && (forall i | 0 <= i < n :: Is(class_, s[i])) && (n < |s| ==> !Is(class_, s[n]))
  {
    if s == "" || !Is(class_, s[0]) then 0 else 1 + Span(class_, s[1..])
  }

  /** The keyword that a word spells, in whatever mixture of cases. */
  ghost function Named(word: string): Option<TokenKind> {
    if kind: TokenKind :| Keyword(kind) != "" && SameButCase(word, Keyword(kind)) then Some(kind) else None
  }

  /** The length of the first lexeme and the tokens it gives, none for white space; nothing if the lexer throws. */
  ghost function First(s: string): Option<(nat, seq<Token>)>
    requires s != ""
  {
    if Is(Blanks, s[0]) then Some((Span(Blanks, s), []))
    else if Is(Letters, s[0]) then
      var n := Span(Letters, s);
      match Named(s[..n])
      case None => None
      case Some(kind) => Some((n, [Token(kind, s[..n])]))
    else if Is(Digits, s[0]) || s[0] == '-' then
      var sign := if s[0] == '-' then 1 else 0;
      var n := sign + Span(Digits, s[sign..]);
      if n == sign || (n < |s| && Is(Letters, s[n])) then None else Some((n, [Token(INTEGER, s[..n])]))
    else if s[0] == '"' then
      var n := 1 + Span(Quotable, s[1..]);
      if n < |s| && s[n] == '"' then Some((n + 1, [Token(STRING, s[1..n])])) else None
    else None
  }

  ghost function Scan(s: string): Option<seq<Token>>
    decreases |s|
  {
    if s == "" then None
    else
      match First(s)
      case None => None
      case Some((n, tokens)) =>
        if n == 0 || n > |s| then None
        else Prepend(tokens, if n == |s| then Some([]) else Scan(s[n..]))
  }

  // ---------------------------------------------------------------- keywords

  lemma KeywordFound(u: string)
    ensures KeywordOf(u) != IDENTIFIER ==> Keyword(KeywordOf(u)) == u && u != ""
  {
  }

  lemma NamedExactly(word: string)
    ensures Named(word) == if Identify(word) == IDENTIFIER then None else Some(Identify(word))
  {
    hide Keyword, KeywordOf, SameButCase;
    KeywordFound(ToUpper(word));
    if Identify(word) != IDENTIFIER {
      KeywordSpelled(Identify(word), word);
    }
    match Named(word) {
      case None =>
      case Some(kind) =>
        KeywordSpelled(kind, word);
        KeywordIdentified(kind);
    }
  }

  // ---------------------------------------------------------------- the first lexeme

  /** The automaton reads `first(s)` as the first lexeme of `s`. */
  ghost predicate Reads(t: Table, s: string)
    requires Proper(t, SHIPPED_TOKENS) && s != ""
  {
    match First(s)
    case None =>
      Munch(t, SHIPPED_TOKENS, s).None?
      || TokenOf(t, SHIPPED_TOKENS, s[..Munch(t, SHIPPED_TOKENS, s).value]).Throws?
    case Some((n, tokens)) =>
      && Munch(t, SHIPPED_TOKENS, s) == Some(n) && 0 < n <= |s|
      && TokenOf(t, SHIPPED_TOKENS, s[..n]).Found? && Shown(t, SHIPPED_TOKENS, s[..n]) == tokens
  }

  lemma Unaccepted(t: Table, s: string, run: nat)
    requires Shipped(t) && Stopped(t, s, run) && forall j | 0 <= j <= run :: Run(t, s[..j]) !in SHIPPED_TOKENS
    ensures Munch(t, SHIPPED_TOKENS, s).None?
  {
    assert Proper(t, SHIPPED_TOKENS);
    DeadBeyond(t, SHIPPED_TOKENS, s, run);
    hide Run, Stopped, Shipped;
    forall k
      ensures !Accepted(t, SHIPPED_TOKENS, s, k)
    {
    }
  }

  lemma ReadsWord(t: Table, s: string, n: nat, state: State)
    requires Shipped(t) && 0 < n <= |s| && Alive(t, s[..n], n) && Run(t, s[..n]) == state && state in SHIPPED_TOKENS
    requires n < |s| ==> ShippedNext(state, ClassOf(s[n])) == ErrorState
    ensures Munch(t, SHIPPED_TOKENS, s) == Some(n)
  {
    hide Run, Alive, Shipped, ShippedNext, ClassOf;
    assert s == s[..n] + s[n..];
    MunchWord(t, s[..n], s[n..]);
  }

  lemma BlanksRun(t: Table, w: string)
    requires Shipped(t) && w != "" && forall i | 0 <= i < |w| :: Is(Blanks, w[i])
    ensures Alive(t, w, |w|) && Run(t, w) == Ws
  {
    EmptyRun(t, "");
    assert forall i | 0 <= i < |w| :: ClassOf(w[i]) == Space || ClassOf(w[i]) == Newline;
    hide Run, Shipped, ClassOf;
    Repeated(t, "", w, Ws);
    assert "" + w == w;
  }

  lemma ReadsBlanks(t: Table, s: string)
    requires Shipped(t) && s != "" && Is(Blanks, s[0])
    ensures Reads(t, s)
  {
    var n := Span(Blanks, s);
    BlanksRun(t, s[..n]);
    assert n < |s| ==> ClassOf(s[n]) != Space && ClassOf(s[n]) != Newline;
    hide Run, Alive, ClassOf;
    ReadsWord(t, s, n, Ws);
  }

  lemma ReadsLetters(t: Table, s: string)
    requires Shipped(t) && s != "" && Is(Letters, s[0])
    ensures Reads(t, s)
  {
    hide Keyword, KeywordOf;
    var n := Span(Letters, s);
    KeyRuns(t, s[..n]);
    ReadsWord(t, s, n, Iden);
    NamedExactly(s[..n]);
    NotWhite(s[..n]);
  }

  lemma NotWhite(word: string)
    ensures Identify(word) != WHITESPACE
  {
  }

  lemma DigitsRun(t: Table, s: string, sign: nat, n: nat)
    requires Shipped(t) && sign == (if s != "" && s[0] == '-' then 1 else 0) && sign < n <= |s|
    requires forall i | sign <= i < n :: Is(Digits, s[i])
    ensures Alive(t, s[..n], n) && Run(t, s[..n]) == Int
  {
    var digits := s[sign..n];
    assert forall i | 0 <= i < |digits| :: ClassOf(digits[i]) == Digit;
    if sign == 1 {
      OneRuns(t, '-', IntNeg);
      hide Run, Alive, Shipped, ClassOf;
      assert s[..n] == ['-'] + digits;
      Repeated(t, ['-'], digits, Int);
    } else {
      EmptyRun(t, "");
      hide Run, Shipped, ClassOf;
      assert s[..n] == "" + digits;
      Repeated(t, "", digits, Int);
    }
  }

  lemma ReadsDigits(t: Table, s: string)
    requires Shipped(t) && s != "" && (Is(Digits, s[0]) || s[0] == '-')
    ensures Reads(t, s)
  {
    hide Run, Shipped, ClassOf, NextState;
    var sign := if s[0] == '-' then 1 else 0;
    var n := sign + Span(Digits, s[sign..]);
    SpanFrom(Digits, s, sign);
    if n == sign {
      LoneSign(t, s);
    } else {
      DigitsRun(t, s, sign, n);
      AfterDigits(t, s, n);
    }
  }

  lemma SpanFrom(class_: Class, s: string, from: nat)
    requires from <= |s|
    ensures var n := from + Span(class_, s[from..]);
            n <= |s| && (forall i | from <= i < n :: Is(class_, s[i])) && (n < |s| ==> !Is(class_, s[n]))
  {
    var n := from + Span(class_, s[from..]);
    assert forall i | from <= i < |s| :: s[i] == s[from..][i - from];
  }

  lemma AfterDigits(t: Table, s: string, n: nat)
    requires Shipped(t) && 0 < n <= |s| && Alive(t, s[..n], n) && Run(t, s[..n]) == Int
    requires n < |s| ==> !Is(Digits, s[n])
    ensures n < |s| && Is(Letters, s[n]) ==> Munch(t, SHIPPED_TOKENS, s).None?
    ensures !(n < |s| && Is(Letters, s[n])) ==> Munch(t, SHIPPED_TOKENS, s) == Some(n)
  {
    if n < |s| && Is(Letters, s[n]) {
      RunStep(t, s, n);
      assert Run(t, s[..n + 1]) == SyntaxError;
    } else {
      hide Run, Alive, Shipped;
      ReadsWord(t, s, n, Int);
    }
  }

  lemma LoneSign(t: Table, s: string)
    requires Shipped(t) && s != "" && s[0] == '-' && (|s| > 1 ==> !Is(Digits, s[1]))
    ensures Munch(t, SHIPPED_TOKENS, s).None?
  {
    EmptyRun(t, s);
    RunStep(t, s, 0);
    if |s| > 1 {
      RunStep(t, s, 1);
    }
    Unaccepted(t, s, 1);
  }

  lemma QuotedRun(t: Table, s: string, n: nat)
    requires Shipped(t) && 0 < n <= |s| && s[0] == '"' && forall i | 1 <= i < n :: Is(Quotable, s[i])
    ensures Alive(t, s[..n], n) && Run(t, s[..n]) == String1
  {
    var inner := s[1..n];
    OneRuns(t, '"', String1);
    assert s[..n] == ['"'] + inner;
    assert forall i | 0 <= i < |inner| :: ClassOf(inner[i]) != Quotation && ClassOf(inner[i]) != Minus;
    hide Run, Alive, Shipped, ClassOf;
    if inner == "" {
      assert s[..n] == ['"'];
    } else {
      Repeated(t, ['"'], inner, String1);
    }
  }

  lemma ReadsQuoted(t: Table, s: string)
    requires Shipped(t) && s != "" && s[0] == '"'
    ensures Reads(t, s)
  {
    hide Run, Shipped, ClassOf, NextState, Alive;
    var n := 1 + Span(Quotable, s[1..]);
    SpanFrom(Quotable, s, 1);
    QuotedRun(t, s, n);
    if n < |s| && s[n] == '"' {
      CloseQuote(t, s[..n]);
      assert s[..n] + ['"'] == s[..n + 1];
      ReadsWord(t, s, n + 1, String2);
      assert RemoveFirstAndLast(s[..n + 1]) == s[1..n];
    } else {
      Unclosed(t, s, n);
    }
  }

  lemma CloseQuote(t: Table, w: string)
    requires Shipped(t) && Alive(t, w, |w|) && Run(t, w) == String1
    ensures Alive(t, w + ['"'], |w| + 1) && Run(t, w + ['"']) == String2
  {
    hide Run, Alive, Shipped;
    Extend(t, w, '"');
  }

  lemma Unclosed(t: Table, s: string, n: nat)
    requires Shipped(t) && 0 < n <= |s| && s[0] == '"' && forall i | 1 <= i < n :: Is(Quotable, s[i])
    requires n < |s| ==> s[n] == '-'
    ensures Munch(t, SHIPPED_TOKENS, s).None?
  {
    EmptyRun(t, s);
    forall j | 0 <= j <= n
      ensures Run(t, s[..j]) == if j == 0 then Start else String1
    {
      if j > 0 {
        QuotedRun(t, s, j);
      }
    }
    if n < |s| {
      RunStep(t, s, n);
    }
    Unaccepted(t, s, n);
  }

  lemma ReadsOther(t: Table, s: string)
    requires Shipped(t) && s != "" && s[0] != '"' && s[0] != '-'
    requires !Is(Blanks, s[0]) && !Is(Letters, s[0]) && !Is(Digits, s[0])
    ensures Reads(t, s)
  {
    EmptyRun(t, s);
    RunStep(t, s, 0);
    Unaccepted(t, s, 0);
  }

  /**
   The table-driven lexer with its rollback reads exactly the language of `Scan`, for every input: it throws where `Scan`
   has nothing, in particular for every word that is not a keyword, and else gives the same tokens.
   */
  lemma {:induction false} ScanExactly(t: Table, s: string)
    requires Shipped(t)
    ensures Proper(t, SHIPPED_TOKENS) && Tokens(t, SHIPPED_TOKENS, s) == Scan(s)
    decreases |s|
  {
    assert Proper(t, SHIPPED_TOKENS);
    TokensStep(t, SHIPPED_TOKENS, s);
    if s == "" {
    } else {
      ReadsFirst(t, s);
      hide Shipped, Tokens, First, Munch, TokenOf, Shown, Longest, HitsSyntaxError, Accepted;
      match First(s)
      case None =>
      case Some((n, tokens)) =>
        if n < |s| {
          ScanExactly(t, s[n..]);
        }
    }
  }

  lemma ReadsFirst(t: Table, s: string)
    requires Shipped(t) && s != ""
    ensures Reads(t, s)
  {
    hide Reads, Shipped;
    if Is(Blanks, s[0]) {
      ReadsBlanks(t, s);
    } else if Is(Letters, s[0]) {
      ReadsLetters(t, s);
    } else if Is(Digits, s[0]) || s[0] == '-' {
      ReadsDigits(t, s);
    } else if s[0] == '"' {
      ReadsQuoted(t, s);
    } else {
      ReadsOther(t, s);
    }
  }
}
