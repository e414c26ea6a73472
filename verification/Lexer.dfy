/** The lexer: a run of the automaton, then a rollback to the last accepting state. */
module Lexing {
  import opened Packages
  import opened Dfsa

  datatype TokenKind =
    | INTEGER | IDENTIFIER | WHITESPACE | STRING
    | LINE | RECTANGLE | CIRCLE | TEXT | FILL
    | ALL | MINE | NONE
    | HELP | TOOL | COLOUR | DRAW | LIST | SELECT | DELETE | UNDO | CLEAR | SHOW | EXIT

  datatype Token = Token(kind: TokenKind, lexeme: string)

  /** What `nextChar` and `peekChar` return past the end; the byte 0xFF in the input would look the same. */
  const EOF: char := 255 as char

  type TokenMap = map<State, TokenKind>

  const SHIPPED_TOKENS: TokenMap := map[Int := INTEGER, Iden := IDENTIFIER, Ws := WHITESPACE, String2 := STRING]

  function UpperChar(c: char): char {
    if 'a' <= c <= 'z' then ((c as int) - 32) as char else c
  }

  function ToUpper(s: string): (u: string)
    ensures |u| == |s|
  {
    seq(|s|, i requires 0 <= i < |s| => UpperChar(s[i]))
  }

  function Identify(lexeme: string): TokenKind {
    KeywordOf(ToUpper(lexeme))
  }

  function KeywordOf(s: string): TokenKind {
    if s == "HELP" then HELP
    else if s == "TOOL" then TOOL
    else if s == "COLOUR" then COLOUR
    else if s == "DRAW" then DRAW
    else if s == "LIST" then LIST
    else if s == "SELECT" then SELECT
    else if s == "DELETE" then DELETE
    else if s == "UNDO" then UNDO
    else if s == "CLEAR" then CLEAR
    else if s == "SHOW" then SHOW
    else if s == "EXIT" then EXIT
    else if s == "LINE" then LINE
    else if s == "RECTANGLE" then RECTANGLE
    else if s == "CIRCLE" then CIRCLE
    else if s == "TEXT" then TEXT
    else if s == "FILL" then FILL
    else if s == "ALL" then ALL
    else if s == "MINE" then MINE
    else if s == "NONE" then NONE
    else IDENTIFIER
  }

  function RemoveFirstAndLast(s: string): string {
    if |s| >= 2 then s[1..|s| - 1] else s
  }

  /** The token for an accepted lexeme; none if it is a word that is not a keyword. */
  function Finish(kind: TokenKind, lexeme: string): Option<Token> {
    match kind
    case IDENTIFIER =>
      var word := Identify(lexeme);
      if word == IDENTIFIER then None else Some(Token(word, lexeme))
    case STRING => Some(Token(STRING, RemoveFirstAndLast(lexeme)))
    case _ => Some(Token(kind, lexeme))
  }

  // ---------------------------------------------------------------- runs of the automaton

  /** The state after reading all of `s`. */
  function Run(t: Table, s: string): State
    requires Complete(t)
  {
    if s == "" then Start else NextState(t, Run(t, s[..|s| - 1]), ClassOf(s[|s| - 1]))
  }

  /** The start state and the two error states are not accepting. */
  ghost predicate Proper(t: Table, tm: TokenMap) {
    Complete(t) && Start !in tm && ErrorState !in tm && SyntaxError !in tm
  }

  /** The run over `s` enters the syntax-error state. */
  ghost predicate HitsSyntaxError(t: Table, s: string)
    requires Complete(t)
  {
    exists k :: 0 <= k <= |s| && Run(t, s[..k]) == SyntaxError
  }

  ghost predicate Accepted(t: Table, tm: TokenMap, s: string, k: int)
    requires Complete(t)
  {
    0 <= k <= |s| && Run(t, s[..k]) in tm
  }

  /** `k` is the length of the longest accepted prefix. */
  ghost predicate Longest(t: Table, tm: TokenMap, s: string, k: int)
    requires Complete(t)
  {
    Accepted(t, tm, s, k) && forall j | k < j <= |s| :: !Accepted(t, tm, s, j)
  }

  /** The run over the first `k` characters has met neither error state. */
  ghost predicate Alive(t: Table, s: string, k: nat)
    requires Complete(t)
  {
    k <= |s| && forall j | 0 <= j <= k :: Run(t, s[..j]) != SyntaxError && Run(t, s[..j]) != ErrorState
  }

  /** The automaton stops after `k` characters: at the end of the input, or before a character it has no place for. */
  ghost predicate Stopped(t: Table, s: string, k: nat)
    requires Complete(t)
  {
    Alive(t, s, k) && (k == |s| || Run(t, s[..k + 1]) == ErrorState)
  }

  lemma RunStep(t: Table, s: string, k: nat)
    requires Complete(t) && k < |s|
    ensures Run(t, s[..k + 1]) == NextState(t, Run(t, s[..k]), ClassOf(s[k]))
  {
    assert s[..k + 1][..k] == s[..k];
  }

  lemma {:induction false} DeadAfter(t: Table, s: string, k: nat, j: nat)
    requires Complete(t) && k <= j <= |s| && Run(t, s[..k]) == ErrorState
    ensures Run(t, s[..j]) == ErrorState
    decreases j
  {
    if k < j {
      DeadAfter(t, s, k, j - 1);
      RunStep(t, s, j - 1);
    }
  }

  /** The stack once state `k` of the run has been pushed: everything since the last accepting state. */
  function StackAt(t: Table, tm: TokenMap, s: string, k: nat): seq<State>
    requires Complete(t) && k <= |s|
  {
    var state := Run(t, s[..k]);
    if state in tm then [state]
    else if k == 0 then [SyntaxError, state]
    else StackAt(t, tm, s, k - 1) + [state]
  }

  // ---------------------------------------------------------------- maximal munch

  lemma {:induction false} LongestExists(t: Table, tm: TokenMap, s: string, from: int, k: int)
    requires Proper(t, tm) && Accepted(t, tm, s, k) && k <= from <= |s|
    requires forall j | from < j <= |s| :: !Accepted(t, tm, s, j)
    ensures exists longest: nat :: Longest(t, tm, s, longest)
    decreases from - k
  {
    if Accepted(t, tm, s, from) {
      assert Longest(t, tm, s, from);
    } else {
      LongestExists(t, tm, s, from - 1, k);
    }
  }

  /** The length of the next lexeme, if the lexer does not throw: the longest accepted prefix of a clean run. */
  ghost function Munch(t: Table, tm: TokenMap, s: string): (r: Option<nat>)
    requires Proper(t, tm)
    ensures r.None? <==> HitsSyntaxError(t, s) || forall k :: !Accepted(t, tm, s, k)
    ensures r.Some? ==> Longest(t, tm, s, r.value) && 0 < r.value <= |s|
  {
    if HitsSyntaxError(t, s) || forall k :: !Accepted(t, tm, s, k) then None
    else
      var k :| Accepted(t, tm, s, k);
      LongestExists(t, tm, s, |s|, k);
      var longest: nat :| Longest(t, tm, s, longest);
      Some(longest)
  }

  /** The raw lexemes of an input, if none of its tokens throws; white space included. */
  ghost function Lexemes(t: Table, tm: TokenMap, s: string): Option<seq<string>>
    requires Proper(t, tm)
    decreases |s|
  {
    match Munch(t, tm, s)
    case None => None
    case Some(k) =>
      if TokenOf(t, tm, s[..k]).Throws? then None
      else if k == |s| then Some([s])
      else
        match Lexemes(t, tm, s[k..])
        case None => None
        case Some(rest) => Some([s[..k]] + rest)
  }

  function Concat(ss: seq<string>): string {
    if ss == [] then "" else ss[0] + Concat(ss[1..])
  }

  ghost predicate AllTokens(t: Table, tm: TokenMap, lexemes: seq<string>) {
    Proper(t, tm) && forall i | 0 <= i < |lexemes| ::
      lexemes[i] != "" && Run(t, lexemes[i]) in tm && TokenOf(t, tm, lexemes[i]).Found?
  }

  lemma MunchAccepts(t: Table, tm: TokenMap, s: string)
    requires Proper(t, tm) && Munch(t, tm, s).Some?
    ensures Run(t, s[..Munch(t, tm, s).value]) in tm
  {
  }

  lemma AllTokensCons(t: Table, tm: TokenMap, lexeme: string, rest: seq<string>)
    requires AllTokens(t, tm, rest) && lexeme != "" && Run(t, lexeme) in tm && TokenOf(t, tm, lexeme).Found?
    ensures AllTokens(t, tm, [lexeme] + rest) && Concat([lexeme] + rest) == lexeme + Concat(rest)
  {
    var all := [lexeme] + rest;
    assert all[1..] == rest;
    assert forall i | 0 < i < |all| :: all[i] == rest[i - 1];
  }

  /** Tokenising is lossless: the raw lexemes, none of them empty, are the whole input. */
  lemma {:induction false} Lossless(t: Table, tm: TokenMap, s: string)
    requires Proper(t, tm) && Lexemes(t, tm, s).Some?
    ensures Concat(Lexemes(t, tm, s).value) == s
    ensures AllTokens(t, tm, Lexemes(t, tm, s).value)
    decreases |s|
  {
    hide HitsSyntaxError, Longest, Finish, TokenOf, Munch, AllTokens, Concat, Run;
    var k := Munch(t, tm, s).value;
    MunchAccepts(t, tm, s);
    NoTokens(t, tm);
    if k == |s| {
      assert s[..k] == s && [s] + [] == [s] && s + "" == s;
      AllTokensCons(t, tm, s, []);
    } else {
      var rest := Lexemes(t, tm, s[k..]).value;
      Lossless(t, tm, s[k..]);
      AllTokensCons(t, tm, s[..k], rest);
      assert s == s[..k] + s[k..];
    }
  }

  lemma NoTokens(t: Table, tm: TokenMap)
    requires Proper(t, tm)
    ensures AllTokens(t, tm, []) && Concat([]) == ""
  {
  }

  /** What the parser is handed: the tokens of the lexemes, without white space. */
  function Visible(t: Table, tm: TokenMap, lexemes: seq<string>): seq<Token>
    requires Complete(t)
  {
    if lexemes == [] then []
    else Shown(t, tm, lexemes[0]) + Visible(t, tm, lexemes[1..])
  }

  function Shown(t: Table, tm: TokenMap, lexeme: string): seq<Token>
    requires Complete(t)
  {
    if Run(t, lexeme) !in tm then []
    else
      match TokenOf(t, tm, lexeme)
      case Throws => []
      case Found(token) => if token.kind == WHITESPACE then [] else [token]
  }

  ghost function Tokens(t: Table, tm: TokenMap, s: string): Option<seq<Token>>
    requires Proper(t, tm)
  {
    match Lexemes(t, tm, s)
    case None => None
    case Some(lexemes) => Some(Visible(t, tm, lexemes))
  }

  /** With the shipped table, a token never rolls back over a character that the automaton has consumed. */
  lemma NoRollBack(t: Table, s: string, run: nat, k: nat)
    requires Shipped(t) && Stopped(t, s, run) && Longest(t, SHIPPED_TOKENS, s, k)
    ensures k == run
  {
    assert Proper(t, SHIPPED_TOKENS);
    DeadBeyond(t, SHIPPED_TOKENS, s, run);
    if k < run {
      RunStep(t, s, k);
      assert Run(t, s[..k + 1]) == ShippedNext(Run(t, s[..k]), ClassOf(s[k]));
      assert Accepted(t, SHIPPED_TOKENS, s, k + 1);
    }
  }

  datatype Outcome = Found(token: Token) | Throws

  class Lexer {
    const dfsa: DFSA
    var tokenMap: TokenMap

    constructor ()
      ensures fresh(dfsa) && Shipped(dfsa.table) && tokenMap == SHIPPED_TOKENS
    {
      dfsa := new DFSA();
      tokenMap := map[];
      new;
      dfsa.InitTransitions();
      tokenMap := tokenMap[Int := INTEGER];
      tokenMap := tokenMap[Iden := IDENTIFIER];
      tokenMap := tokenMap[Ws := WHITESPACE];
      tokenMap := tokenMap[String2 := STRING];
    }

    /** The first half of `nextToken`: runs the automaton until it stops, and keeps the states since it last accepted. */
    method RunAutomaton(src: string, idx: nat)
      returns (syntaxError: bool, stack: seq<State>, lexeme: string, i: nat, ghost run: nat, ghost calls: nat)
      requires Proper(dfsa.table, tokenMap) && idx <= |src| && EOF !in src
      ensures calls <= |src| - idx + 1
      ensures syntaxError ==> HitsSyntaxError(dfsa.table, src[idx..])
      ensures !syntaxError ==>
                && Stopped(dfsa.table, src[idx..], run) && calls == run + 1
                && i == idx + run && lexeme == src[idx..][..run]
                && stack == StackAt(dfsa.table, tokenMap, src[idx..], run)
    {
      hide Run;
      var state, eof := Start, false;
      syntaxError, stack, lexeme, i := false, [SyntaxError], "", idx;
      ghost var s, t := src[idx..], dfsa.table;
      run, calls := 0, 0;
      EmptyRun(t, s);
      while state != ErrorState && !eof
        invariant idx <= i <= |src| && run == i - idx && lexeme == s[..run]
        invariant Alive(t, s, run)
        invariant state != ErrorState && !eof ==>
                    state == Run(t, s[..run]) && calls == run
                    && stack == if run == 0 then [SyntaxError] else StackAt(t, tokenMap, s, run - 1)
        invariant state == ErrorState || eof ==>
                    calls == run + 1 && stack == StackAt(t, tokenMap, s, run) && Stopped(t, s, run)
        decreases |src| - i, if state == ErrorState || eof then 0 else 1
      {
        if state in tokenMap {
          stack := [];
        }
        stack := stack + [state];
        var nextChar := EOF;
        if i < |src| {
          nextChar, i := src[i], i + 1;
        }
        calls := calls + 1;
        if nextChar == EOF {
          eof := true;
        } else {
          RunStep(t, s, run);
          state := NextState(dfsa.table, state, ClassOf(nextChar));
          if state == SyntaxError {
            syntaxError := true;
            return;
          }
          if state != ErrorState {
            lexeme := lexeme + [nextChar];
            run := run + 1;
          } else {
            i := i - 1;
          }
        }
      }
    }

    /** The second half: rolls back to the last accepting state, one character for each state on the stack. */
    method RollBack(src: string, idx: nat, stack0: seq<State>, lexeme0: string, i0: nat, ghost run: nat)
      returns (accepted: bool, state: State, lexeme: string, i: int)
      requires Proper(dfsa.table, tokenMap) && idx <= |src| && Stopped(dfsa.table, src[idx..], run)
      requires i0 == idx + run && lexeme0 == src[idx..][..run]
      requires stack0 == StackAt(dfsa.table, tokenMap, src[idx..], run)
      ensures accepted ==>
                && idx <= i <= idx + run && Longest(dfsa.table, tokenMap, src[idx..], i - idx)
                && lexeme == src[idx..][..i - idx] && state == Run(dfsa.table, lexeme)
      ensures !accepted ==> forall k :: !Accepted(dfsa.table, tokenMap, src[idx..], k)
    {
      hide Run, HitsSyntaxError, Finish;
      var stack := stack0;
      accepted, state, lexeme, i := false, SyntaxError, lexeme0, i0;
      ghost var s, t := src[idx..], dfsa.table;
      ghost var k: int := run;
      DeadBeyond(t, tokenMap, s, run);
      while stack != []
        invariant -1 <= k <= run && i == idx + k
        invariant k >= 0 ==> stack == StackAt(t, tokenMap, s, k) && lexeme == s[..k]
        invariant k == -1 ==> stack == [SyntaxError]
        invariant forall j | k < j <= |s| :: !Accepted(t, tokenMap, s, j)
        decreases |stack|
      {
        var top := stack[|stack| - 1];
        if top == SyntaxError {
          return;
        }
        if top in tokenMap {
          accepted, state := true, top;
          return;
        }
        stack := stack[..|stack| - 1];
        lexeme := if lexeme == "" then "" else lexeme[..|lexeme| - 1];
        i := i - 1;
        k := k - 1;
      }
    }

    /**
     Reads one token from position `idx` on. `run` is the number of characters that the automaton consumed before it
     stopped, and `calls` the number of times `nextChar` was called.
     */
    method NextToken(src: string, idx: nat) returns (r: Outcome, idx': int, ghost run: nat, ghost calls: nat)
      requires Proper(dfsa.table, tokenMap) && idx <= |src| && EOF !in src
      ensures calls <= |src| - idx + 1
      ensures HitsSyntaxError(dfsa.table, src[idx..]) ==> r.Throws?
      ensures (forall k :: !Accepted(dfsa.table, tokenMap, src[idx..], k)) ==> r.Throws?
      ensures !HitsSyntaxError(dfsa.table, src[idx..]) ==> Stopped(dfsa.table, src[idx..], run) && calls == run + 1
      ensures !HitsSyntaxError(dfsa.table, src[idx..]) ==>
                forall k | Longest(dfsa.table, tokenMap, src[idx..], k) ::
                  0 < k <= run && idx' == idx + k && r == TokenOf(dfsa.table, tokenMap, src[idx..][..k])
    {
      hide Longest, Run, StackAt;
      var syntaxError, stack, lexeme, i;
      syntaxError, stack, lexeme, i, run, calls := RunAutomaton(src, idx);
      if syntaxError {
        return Throws, i, run, calls;
      }
      DeadBeyond(dfsa.table, tokenMap, src[idx..], run);
      var accepted, state;
      accepted, state, lexeme, idx' := RollBack(src, idx, stack, lexeme, i, run);
      if !accepted {
        NoneIsLongest(dfsa.table, tokenMap, src[idx..]);
        return Throws, idx', run, calls;
      }
      LongestUnique(dfsa.table, tokenMap, src[idx..], idx' - idx);
      match Finish(tokenMap[state], lexeme) {
        case Some(token) => r := Found(token);
        case None => r := Throws;
      }
    }

    /** Tokenises the whole input, or throws. `calls` counts the characters read, up to the throw if there is one. */
    method GenerateTokens(src: string) returns (r: Option<seq<Token>>, ghost calls: nat)
      requires Proper(dfsa.table, tokenMap) && EOF !in src
      ensures r == Tokens(dfsa.table, tokenMap, src)
      ensures Shipped(dfsa.table) && tokenMap == SHIPPED_TOKENS && src != "" ==> calls <= 2 * |src|
    {
      hide Longest, HitsSyntaxError, Stopped, Shipped, Tokens, Shown, Accepted;
      var tokens: seq<Token> := [];
      var i := 0;
      calls := 0;
      ghost var t, tm := dfsa.table, tokenMap;
      assert src[0..] == src;
      PrependTwice([], [], Tokens(t, tm, src));
      while true
        invariant 0 <= i <= |src| && (i == 0 || i < |src|)
        invariant Tokens(t, tm, src) == Prepend(tokens, Tokens(t, tm, src[i..]))
        invariant Shipped(t) && tm == SHIPPED_TOKENS ==> calls <= 2 * i
        decreases |src| - i
      {
        var token, next;
        ghost var run, more;
        token, next, run, more := NextToken(src, i);
        ghost var s := src[i..];
        TokensStep(t, tm, s);
        if token.Throws? {
          return None, calls + more;
        }
        ghost var k := Munch(t, tm, s).value;
        if Shipped(t) && tm == SHIPPED_TOKENS {
          NoRollBack(t, s, run, k);
        }
        ghost var before := tokens;
        if token.token.kind != WHITESPACE {
          tokens := tokens + [token.token];
        }
        ShownIs(t, tm, s[..k]);
        assert tokens == before + Shown(t, tm, s[..k]);
        assert s[k..] == src[next..];
        PrependTwice(before, Shown(t, tm, s[..k]), if k == |s| then Some([]) else Tokens(t, tm, s[k..]));
        assert tokens + [] == tokens;
        i, calls := next, calls + more;
        if i == |src| {
          return Some(tokens), calls;
        }
      }
    }
  }

  /** The tokens found so far, in front of what the rest of the input gives. */
  function Prepend(tokens: seq<Token>, rest: Option<seq<Token>>): Option<seq<Token>> {
    if rest.None? then None else Some(tokens + rest.value)
  }

  lemma PrependTwice(a: seq<Token>, b: seq<Token>, rest: Option<seq<Token>>)
    ensures Prepend([], rest) == rest
    ensures Prepend(a, Prepend(b, rest)) == Prepend(a + b, rest)
  {
    if rest.Some? {
      assert [] + rest.value == rest.value;
      assert a + (b + rest.value) == (a + b) + rest.value;
    }
  }

  lemma ShownIs(t: Table, tm: TokenMap, lexeme: string)
    requires Complete(t) && Run(t, lexeme) in tm && TokenOf(t, tm, lexeme).Found?
    ensures Shown(t, tm, lexeme) ==
              var token := TokenOf(t, tm, lexeme).token;
              if token.kind == WHITESPACE then [] else [token]
  {
  }

  lemma TokensStep(t: Table, tm: TokenMap, s: string)
    requires Proper(t, tm)
    ensures Munch(t, tm, s).None? ==> Tokens(t, tm, s).None?
    ensures Munch(t, tm, s).Some? ==>
              var k := Munch(t, tm, s).value;
              var rest := if k == |s| then Some([]) else Tokens(t, tm, s[k..]);
              && Longest(t, tm, s, k) && !HitsSyntaxError(t, s) && Accepted(t, tm, s, k)
              && (TokenOf(t, tm, s[..k]).Throws? ==> Tokens(t, tm, s).None?)
              && (TokenOf(t, tm, s[..k]).Found? ==> Tokens(t, tm, s) == Prepend(Shown(t, tm, s[..k]), rest))
  {
    if Munch(t, tm, s).Some? {
      var k := Munch(t, tm, s).value;
      assert s[..|s|] == s;
      assert [s][1..] == [];
      if TokenOf(t, tm, s[..k]).Found? {
        if k == |s| {
          assert Lexemes(t, tm, s) == Some([s]);
          assert Visible(t, tm, [s]) == Shown(t, tm, s) + [];
        } else if Lexemes(t, tm, s[k..]).Some? {
          var rest := Lexemes(t, tm, s[k..]).value;
          assert Lexemes(t, tm, s) == Some([s[..k]] + rest);
          assert ([s[..k]] + rest)[1..] == rest;
        }
      }
    }
  }

  /** The token for an accepted lexeme. */
  function TokenOf(t: Table, tm: TokenMap, lexeme: string): Outcome
    requires Complete(t) && Run(t, lexeme) in tm
  {
    match Finish(tm[Run(t, lexeme)], lexeme)
    case Some(token) => Found(token)
    case None => Throws
  }

  lemma EmptyRun(t: Table, s: string)
    requires Complete(t)
    ensures Run(t, s[..0]) == Start
  {
  }

  /** Once the automaton has stopped after `run` characters, no longer prefix is accepted. */
  lemma DeadBeyond(t: Table, tm: TokenMap, s: string, run: nat)
    requires Proper(t, tm) && Stopped(t, s, run)
    ensures forall j | run < j <= |s| :: !Accepted(t, tm, s, j)
    ensures !HitsSyntaxError(t, s)
  {
    forall j | run < j <= |s|
      ensures Run(t, s[..j]) == ErrorState
    {
      DeadAfter(t, s, run + 1, j);
    }
  }

  lemma NoneIsLongest(t: Table, tm: TokenMap, s: string)
    requires Complete(t) && forall j :: !Accepted(t, tm, s, j)
    ensures forall k :: !Longest(t, tm, s, k)
  {
  }

  lemma LongestUnique(t: Table, tm: TokenMap, s: string, k: int)
    requires Proper(t, tm) && Longest(t, tm, s, k)
    ensures 0 < k <= |s| && Run(t, s[..k]) in tm && Accepted(t, tm, s, k)
    ensures forall j | Longest(t, tm, s, j) :: j == k
  {
  }
}
