/** The text of a command line, and that the lexer reads back exactly the words it was made of. */
module CommandText {
  import opened Packages
  import opened Dfsa
  import opened Lexing

  // ---------------------------------------------------------------- decimal numbers

  function Digit10(n: nat): char
    requires n < 10
  {
    ('0' as int + n) as char
  }

  predicate IsDigit(c: char) {
    '0' <= c <= '9'
  }

  function NatText(n: nat): (s: string)
    ensures s != "" && forall i | 0 <= i < |s| :: IsDigit(s[i])
  {
    if n < 10 then [Digit10(n)] else NatText(n / 10) + [Digit10(n % 10)]
  }

  function IntText(n: int): string {
    if n < 0 then "-" + NatText(-n) else NatText(n)
  }

  function DigitsValue(s: string): int {
    if s == "" then 0 else 10 * DigitsValue(s[..|s| - 1]) + (s[|s| - 1] as int - '0' as int)
  }

  /** `std::stoi` on an optional minus sign and digits; it throws outside the range of `int`. */
  function Stoi(s: string): Option<int> {
    var n := if s != "" && s[0] == '-' then -DigitsValue(s[1..]) else DigitsValue(s);
    if -0x8000_0000 <= n < 0x8000_0000 then Some(n) else None
  }

  lemma {:induction false} NatRoundTrip(n: nat)
    ensures DigitsValue(NatText(n)) == n
  {
    var s := NatText(n);
    if n >= 10 {
      NatRoundTrip(n / 10);
      assert s[..|s| - 1] == NatText(n / 10);
    } else {
      assert s[..0] == "";
    }
  }

  /** Decimal text is inverted by `stoi`, for exactly the integers of 32 bits. */
  lemma IntRoundTrip(n: int)
    ensures Stoi(IntText(n)) == if -0x8000_0000 <= n < 0x8000_0000 then Some(n) else None
  {
    NatRoundTrip(if n < 0 then -n else n);
    if n < 0 {
      assert IntText(n)[1..] == NatText(-n);
    } else {
      assert IsDigit(NatText(n)[0]);
    }
  }

  // ---------------------------------------------------------------- words

  datatype Word =
    | Key(kind: TokenKind, spelling: string)
    | Num(n: int)
    | Quoted(text: string)

  function Keyword(kind: TokenKind): string {
    match kind
    case HELP => "HELP" case TOOL => "TOOL" case COLOUR => "COLOUR" case DRAW => "DRAW" case LIST => "LIST"
    case SELECT => "SELECT" case DELETE => "DELETE" case UNDO => "UNDO" case CLEAR => "CLEAR" case SHOW => "SHOW"
    case EXIT => "EXIT" case LINE => "LINE" case RECTANGLE => "RECTANGLE" case CIRCLE => "CIRCLE"
    case TEXT => "TEXT" case FILL => "FILL" case ALL => "ALL" case MINE => "MINE" case NONE => "NONE"
    case _ => ""
  }

  /** The keyword's letters, each of them as it is or in lower case, 32 places further on. */
  predicate SameButCase(word: string, keyword: string) {
    |word| == |keyword|
    && forall i | 0 <= i < |word| :: word[i] == keyword[i] || word[i] as int == keyword[i] as int + 32
  }

  /** A keyword in any mixture of cases, an integer, or a text without quotation marks and minus signs. */
  predicate WordOk(w: Word) {
    match w
    case Key(kind, spelling) => Keyword(kind) != "" && SameButCase(spelling, Keyword(kind))
    case Num(_) => true
    case Quoted(text) => '"' !in text && '-' !in text
  }

  function TextOf(w: Word): string {
    match w
    case Key(_, spelling) => spelling
    case Num(n) => IntText(n)
    case Quoted(text) => "\"" + text + "\""
  }

  function TokenFor(w: Word): Token {
    match w
    case Key(kind, spelling) => Token(kind, spelling)
    case Num(n) => Token(INTEGER, IntText(n))
    case Quoted(text) => Token(STRING, text)
  }

  function LineOf(ws: seq<Word>): string {
    if ws == [] then ""
    else if |ws| == 1 then TextOf(ws[0])
    else TextOf(ws[0]) + (" " + LineOf(ws[1..]))
  }

  function TokensFor(ws: seq<Word>): (ts: seq<Token>)
    ensures |ts| == |ws| && forall i | 0 <= i < |ws| :: ts[i] == TokenFor(ws[i])
  {
    seq(|ws|, i requires 0 <= i < |ws| => TokenFor(ws[i]))
  }

  // ---------------------------------------------------------------- how the automaton reads a word

  lemma Extend(t: Table, w: string, c: char)
    requires Shipped(t) && Alive(t, w, |w|)
    requires ShippedNext(Run(t, w), ClassOf(c)) != ErrorState && ShippedNext(Run(t, w), ClassOf(c)) != SyntaxError
    ensures Run(t, w + [c]) == ShippedNext(Run(t, w), ClassOf(c)) && Alive(t, w + [c], |w| + 1)
  {
    hide ClassOf, ShippedNext, Run;
    var u := w + [c];
    RunStep(t, u, |w|);
    assert w[..|w|] == w && u[..|w|] == w && u[..|w| + 1] == u;
    assert forall j | 0 <= j <= |w| :: u[..j] == w[..j];
  }

  lemma {:induction false} Repeated(t: Table, w: string, u: string, state: State)
    requires Shipped(t) && Alive(t, w, |w|) && u != "" && state != ErrorState && state != SyntaxError
    requires forall i | 0 <= i < |u| ::
               ShippedNext(Run(t, w), ClassOf(u[i])) == state && ShippedNext(state, ClassOf(u[i])) == state
    ensures Run(t, w + u) == state && Alive(t, w + u, |w + u|)
    decreases |u|
  {
    var init, last := u[..|u| - 1], u[|u| - 1];
    assert w + u == (w + init) + [last];
    if init == "" {
      assert w + init == w;
    } else {
      Repeated(t, w, init, state);
    }
    Extend(t, w + init, last);
  }

  lemma StopsAfter(t: Table, w: string, tail: string)
    requires Shipped(t) && w != "" && Alive(t, w, |w|)
    requires tail == "" || ShippedNext(Run(t, w), ClassOf(tail[0])) == ErrorState
    ensures Stopped(t, w + tail, |w|) && Run(t, (w + tail)[..|w|]) == Run(t, w)
  {
    hide Run, ShippedNext, ClassOf;
    var s := w + tail;
    assert forall j | 0 <= j <= |w| :: s[..j] == w[..j];
    assert w[..|w|] == w;
    if tail != "" {
      RunStep(t, s, |w|);
    }
  }

  /** A word that ends where the automaton stops is the next lexeme. */
  lemma MunchWord(t: Table, w: string, tail: string)
    requires Shipped(t) && w != "" && Alive(t, w, |w|) && Run(t, w) in SHIPPED_TOKENS
    requires tail == "" || ShippedNext(Run(t, w), ClassOf(tail[0])) == ErrorState
    ensures Munch(t, SHIPPED_TOKENS, w + tail) == Some(|w|)
  {
    assert Proper(t, SHIPPED_TOKENS);
    hide Run, ShippedNext, ClassOf, Shipped, Alive, Stopped, HitsSyntaxError;
    var s := w + tail;
    StopsAfter(t, w, tail);
    DeadBeyond(t, SHIPPED_TOKENS, s, |w|);
    assert Accepted(t, SHIPPED_TOKENS, s, |w|);
    LongestUnique(t, SHIPPED_TOKENS, s, |w|);
  }

  lemma KeywordIsLetters(kind: TokenKind)
    ensures forall i | 0 <= i < |Keyword(kind)| :: 'A' <= Keyword(kind)[i] <= 'Z'
  {
  }

  lemma FirstCommandsIdentified(kind: TokenKind)
    requires kind in {HELP, TOOL, COLOUR, DRAW, LIST, SELECT}
    ensures KeywordOf(Keyword(kind)) == kind
  {
  }

  lemma OtherCommandsIdentified(kind: TokenKind)
    requires kind in {DELETE, UNDO, CLEAR, SHOW, EXIT}
    ensures KeywordOf(Keyword(kind)) == kind
  {
  }

  lemma ShapesIdentified(kind: TokenKind)
    requires kind in {LINE, RECTANGLE, CIRCLE, TEXT}
    ensures KeywordOf(Keyword(kind)) == kind
  {
  }

  lemma ModifiersIdentified(kind: TokenKind)
    requires kind in {FILL, ALL, MINE, NONE}
    ensures KeywordOf(Keyword(kind)) == kind
  {
  }

  lemma KeywordIdentified(kind: TokenKind)
    requires Keyword(kind) != ""
    ensures KeywordOf(Keyword(kind)) == kind != IDENTIFIER && kind != WHITESPACE
  {
    hide KeywordOf;
    if kind in {LINE, RECTANGLE, CIRCLE, TEXT} {
      ShapesIdentified(kind);
    } else if kind in {FILL, ALL, MINE, NONE} {
      ModifiersIdentified(kind);
    } else if kind in {DELETE, UNDO, CLEAR, SHOW, EXIT} {
      OtherCommandsIdentified(kind);
    } else {
      FirstCommandsIdentified(kind);
    }
  }

  lemma KeywordSpelled(kind: TokenKind, word: string)
    requires Keyword(kind) != ""
    ensures SameButCase(word, Keyword(kind)) <==> ToUpper(word) == Keyword(kind)
  {
    hide Keyword;
    KeywordIsLetters(kind);
    var k := Keyword(kind);
    if |word| == |k| {
      forall i | 0 <= i < |k|
        ensures UpperChar(word[i]) == k[i] <==> word[i] == k[i] || word[i] as int == k[i] as int + 32
      {
      }
      if SameButCase(word, k) {
        assert forall i | 0 <= i < |k| :: ToUpper(word)[i] == k[i];
      }
    }
  }

  lemma SpellingIsLetters(w: Word)
    requires WordOk(w) && w.Key?
    ensures w.spelling != "" && forall i | 0 <= i < |w.spelling| :: ClassOf(w.spelling[i]) == Letter
    ensures Identify(w.spelling) == w.kind != IDENTIFIER && w.kind != WHITESPACE
  {
    hide Keyword, KeywordOf;
    KeywordIsLetters(w.kind);
    KeywordIdentified(w.kind);
    KeywordSpelled(w.kind, w.spelling);
    forall i | 0 <= i < |w.spelling|
      ensures ClassOf(w.spelling[i]) == Letter
    {
      assert UpperChar(w.spelling[i]) == ToUpper(w.spelling)[i];
    }
  }

  function StateFor(w: Word): State {
    match w case Key(_, _) => Iden case Num(_) => Int case Quoted(_) => String2
  }

  lemma OneRuns(t: Table, c: char, state: State)
    requires Shipped(t) && state == ShippedNext(Start, ClassOf(c)) && state != ErrorState && state != SyntaxError
    ensures Alive(t, [c], 1) && Run(t, [c]) == state
  {
    EmptyRun(t, "");
    assert ""[..0] == "" && Alive(t, "", 0);
    hide Run, Alive, Shipped, ClassOf, ShippedNext;
    Extend(t, "", c);
    assert "" + [c] == [c];
  }

  lemma NumRuns(t: Table, n: int)
    requires Shipped(t)
    ensures Alive(t, IntText(n), |IntText(n)|) && Run(t, IntText(n)) == Int
  {
    var digits := NatText(if n < 0 then -n else n);
    assert forall i | 0 <= i < |digits| :: ClassOf(digits[i]) == Digit;
    if n < 0 {
      OneRuns(t, '-', IntNeg);
      hide Run, Alive, Shipped, ClassOf;
      Repeated(t, ['-'], digits, Int);
    } else {
      EmptyRun(t, "");
      hide Run, Shipped, ClassOf;
      Repeated(t, "", digits, Int);
      assert "" + digits == digits;
    }
  }

  lemma QuotedRuns(t: Table, text: string)
    requires Shipped(t) && '"' !in text && '-' !in text
    ensures var w := "\"" + text + "\"";
            Alive(t, w, |w|) && Run(t, w) == String2 && RemoveFirstAndLast(w) == text
  {
    Extend(t, "", '"');
    assert "" + ['"'] == "\"";
    if text != "" {
      Repeated(t, "\"", text, String1);
    } else {
      assert "\"" + text == "\"";
    }
    Extend(t, "\"" + text, '"');
    assert "\"" + text + "\"" == ("\"" + text) + ['"'];
  }

  lemma WordRuns(t: Table, w: Word)
    requires Shipped(t) && WordOk(w)
    ensures TextOf(w) != "" && Alive(t, TextOf(w), |TextOf(w)|) && Run(t, TextOf(w)) == StateFor(w)
    ensures TokenOf(t, SHIPPED_TOKENS, TextOf(w)) == Found(TokenFor(w)) && TokenFor(w).kind != WHITESPACE
    ensures ShippedNext(Ws, ClassOf(TextOf(w)[0])) == ErrorState
  {
    hide Run, Shipped, Keyword, KeywordOf, Alive, RemoveFirstAndLast;
    match w
    case Key(_, spelling) =>
      SpellingIsLetters(w);
      KeyRuns(t, spelling);
    case Num(n) =>
      NumRuns(t, n);
      assert IsDigit(NatText(if n < 0 then -n else n)[0]);
    case Quoted(text) => QuotedRuns(t, text);
  }

  lemma KeyRuns(t: Table, spelling: string)
    requires Shipped(t) && spelling != "" && forall i | 0 <= i < |spelling| :: ClassOf(spelling[i]) == Letter
    ensures Alive(t, spelling, |spelling|) && Run(t, spelling) == Iden
  {
    Repeated(t, "", spelling, Iden);
    assert "" + spelling == spelling;
  }

  lemma SpaceRuns(t: Table)
    requires Shipped(t)
    ensures Alive(t, " ", 1) && Run(t, " ") == Ws && TokenOf(t, SHIPPED_TOKENS, " ") == Found(Token(WHITESPACE, " "))
  {
    Extend(t, "", ' ');
    assert "" + [' '] == " ";
  }

  lemma WordThenTail(t: Table, w: Word, tail: string)
    requires Shipped(t) && WordOk(w) && (tail != "" ==> tail[0] == ' ')
    ensures Tokens(t, SHIPPED_TOKENS, TextOf(w) + tail)
         == Prepend([TokenFor(w)], if tail == "" then Some([]) else Tokens(t, SHIPPED_TOKENS, tail))
  {
    hide Run, Tokens, Munch, TextOf, WordOk, Finish, Alive, Longest, Accepted, HitsSyntaxError;
    var text := TextOf(w);
    WordRuns(t, w);
    MunchWord(t, text, tail);
    TokensStep(t, SHIPPED_TOKENS, text + tail);
    assert (text + tail)[..|text|] == text && (text + tail)[|text|..] == tail;
    ShownIs(t, SHIPPED_TOKENS, text);
  }

  lemma SpaceThenTail(t: Table, tail: string)
    requires Shipped(t) && tail != "" && ShippedNext(Ws, ClassOf(tail[0])) == ErrorState
    ensures Tokens(t, SHIPPED_TOKENS, " " + tail) == Tokens(t, SHIPPED_TOKENS, tail)
  {
    SpaceRuns(t);
    MunchWord(t, " ", tail);
    TokensStep(t, SHIPPED_TOKENS, " " + tail);
    assert (" " + tail)[..1] == " " && (" " + tail)[1..] == tail;
    ShownIs(t, SHIPPED_TOKENS, " ");
    PrependTwice([], [], Tokens(t, SHIPPED_TOKENS, tail));
  }

  /** The lexer reads back exactly the words of a line. */
  lemma {:induction false} LineTokens(t: Table, ws: seq<Word>)
    requires Shipped(t) && ws != [] && forall w | w in ws :: WordOk(w)
    ensures Tokens(t, SHIPPED_TOKENS, LineOf(ws)) == Some(TokensFor(ws))
    decreases |ws|
  {
    hide Run, Tokens, Munch, Shipped, TextOf, WordOk;
    if |ws| == 1 {
      WordThenTail(t, ws[0], "");
      assert TextOf(ws[0]) + "" == TextOf(ws[0]);
      assert [TokenFor(ws[0])] + [] == TokensFor(ws);
    } else {
      var rest := ws[1..];
      LineTokens(t, rest);
      LineStarts(t, rest);
      SpaceThenTail(t, LineOf(rest));
      WordThenTail(t, ws[0], " " + LineOf(rest));
      assert [TokenFor(ws[0])] + TokensFor(rest) == TokensFor(ws);
    }
  }

  lemma LineStarts(t: Table, ws: seq<Word>)
    requires Shipped(t) && ws != [] && WordOk(ws[0])
    ensures LineOf(ws) != "" && ShippedNext(Ws, ClassOf(LineOf(ws)[0])) == ErrorState
  {
    WordRuns(t, ws[0]);
  }

  // ---------------------------------------------------------------- which texts can be quoted

  /** A run that began with a quotation mark is inside a text or has just left it. */
  lemma {:induction false} StringRun(t: Table, w: string)
    requires Shipped(t) && w != "" && w[0] == '"' && Alive(t, w, |w|)
    ensures Run(t, w) == String1 || Run(t, w) == String2
    ensures Run(t, w) == String1 ==> '"' !in w[1..] && '-' !in w[1..]
    ensures Run(t, w) == String2 ==> |w| >= 2 && '"' !in w[1..|w| - 1] && '-' !in w[1..|w| - 1] && w[|w| - 1] == '"'
  {
    hide Run;
    var init, last := w[..|w| - 1], w[|w| - 1];
    EmptyRun(t, w);
    RunStep(t, w, |w| - 1);
    assert w[..|w|] == w;
    if init != "" {
      assert forall j | 0 <= j <= |init| :: init[..j] == w[..j];
      StringRun(t, init);
      assert w[1..] == init[1..] + [last];
      assert w[1..|w| - 1] == init[1..];
    }
  }

  /** A text in quotation marks is read back as itself if and only if it has no quotation mark and no minus sign. */
  lemma QuotedExactly(t: Table, text: string)
    requires Shipped(t)
    ensures Tokens(t, SHIPPED_TOKENS, "\"" + text + "\"") == Some([Token(STRING, text)])
       <==> '"' !in text && '-' !in text
  {
    assert Proper(t, SHIPPED_TOKENS);
    hide *;
    if '"' !in text && '-' !in text {
      QuotedFits(t, text);
    } else if Tokens(t, SHIPPED_TOKENS, "\"" + text + "\"") == Some([Token(STRING, text)]) {
      var inner := QuotedAs(t, "\"" + text + "\"", text);
      assert false;
    }
  }

  lemma QuotedFits(t: Table, text: string)
    requires Shipped(t) && '"' !in text && '-' !in text
    ensures Tokens(t, SHIPPED_TOKENS, "\"" + text + "\"") == Some([Token(STRING, text)])
  {
    hide Tokens;
    LineTokens(t, [Quoted(text)]);
    assert TokensFor([Quoted(text)]) == [Token(STRING, text)];
  }

  /** What is read back as one text is a first lexeme without inner quotation marks and minus signs. */
  lemma QuotedAs(t: Table, w: string, text: string) returns (k: nat)
    requires Shipped(t) && w != "" && w[0] == '"' && Tokens(t, SHIPPED_TOKENS, w) == Some([Token(STRING, text)])
    ensures '"' !in text && '-' !in text
  {
    hide Run, Tokens, Munch, Longest, Accepted, HitsSyntaxError;
    assert Proper(t, SHIPPED_TOKENS);
    hide Shipped;
    TokensStep(t, SHIPPED_TOKENS, w);
    k := Munch(t, SHIPPED_TOKENS, w).value;
    FirstQuoted(t, w, k);
    ShownIs(t, SHIPPED_TOKENS, w[..k]);
    assert Tokens(t, SHIPPED_TOKENS, w).value[0] == Token(STRING, w[1..k - 1]);
  }

  lemma FirstQuoted(t: Table, w: string, k: nat)
    requires Shipped(t) && w != "" && w[0] == '"'
    requires Longest(t, SHIPPED_TOKENS, w, k) && !HitsSyntaxError(t, w)
    ensures k >= 2 && Run(t, w[..k]) == String2 && '"' !in w[1..k - 1] && '-' !in w[1..k - 1]
    ensures TokenOf(t, SHIPPED_TOKENS, w[..k]) == Found(Token(STRING, w[1..k - 1]))
  {
    var lexeme := w[..k];
    forall j | 0 <= j <= k
      ensures Run(t, w[..j]) != ErrorState
    {
      if Run(t, w[..j]) == ErrorState {
        DeadAfter(t, w, j, k);
      }
    }
    assert forall j | 0 <= j <= k :: lexeme[..j] == w[..j];
    assert k > 0 by { EmptyRun(t, w); }
    StringRun(t, lexeme);
    assert lexeme[1..k - 1] == w[1..k - 1];
  }
}
