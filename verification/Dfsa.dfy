/** The finite automaton of the lexer: states, character classes, and the transition table. */
module Dfsa {
  datatype State =
    | Start | ErrorState | SyntaxError
    | Int | IntNeg | Iden | Ws | String1 | String2

  datatype Lexeme = Letter | Digit | Space | Newline | Quotation | Minus | Unknown

  const MAX_STATES := 9
  const MAX_LEXEMES := 7

  /** One row for each state, one column for each character class. */
  type Table = seq<seq<State>>

  function Row(s: State): (i: nat)
    ensures i < MAX_STATES
  {
    match s
    case Start => 0 case ErrorState => 1 case SyntaxError => 2
    case Int => 3 case IntNeg => 4 case Iden => 5 case Ws => 6 case String1 => 7 case String2 => 8
  }

  function Column(l: Lexeme): (i: nat)
    ensures i < MAX_LEXEMES
  {
    match l
    case Letter => 0 case Digit => 1 case Space => 2 case Newline => 3
    case Quotation => 4 case Minus => 5 case Unknown => 6
  }

  ghost predicate Complete(t: Table) {
    |t| == MAX_STATES && forall i | 0 <= i < MAX_STATES :: |t[i]| == MAX_LEXEMES
  }

  function ClassOf(c: char): Lexeme {
    if 'A' <= c <= 'Z' || 'a' <= c <= 'z' then Letter
    else if '0' <= c <= '9' then Digit
    else if c == ' ' then Space
    else if c == '\n' then Newline
    else if c == '"' then Quotation
    else if c == '-' then Minus
    else Unknown
  }

  function NextState(t: Table, s: State, l: Lexeme): State
    requires Complete(t)
  {
    if s == ErrorState then ErrorState else t[Row(s)][Column(l)]
  }

  /** The transitions that the lexer is shipped with; every other one leads to the error state. */
  function ShippedNext(s: State, l: Lexeme): State {
    match s
    case Start =>
      (match l case Digit => Int case Minus => IntNeg case Letter => Iden
       case Space => Ws case Newline => Ws case Quotation => String1 case Unknown => ErrorState)
    case Int => if l == Digit then Int else if l == Letter then SyntaxError else ErrorState
    case IntNeg => if l == Digit then Int else ErrorState
    case Iden => if l == Letter then Iden else ErrorState
    case Ws => if l == Space || l == Newline then Ws else ErrorState
    case String1 => if l == Quotation then String2 else if l == Minus then ErrorState else String1
    case _ => ErrorState
  }

  ghost predicate Shipped(t: Table) {
    Complete(t) && forall s: State, l: Lexeme :: NextState(t, s, l) == ShippedNext(s, l)
  }

  const BLANK := [ErrorState, ErrorState, ErrorState, ErrorState, ErrorState, ErrorState, ErrorState]

  class DFSA {
    var table: Table

    constructor ()
    {
      table := [];
    }

    method GenerateTransitionTable()
      modifies this
      ensures table == seq(MAX_STATES, i => seq(MAX_LEXEMES, j => ErrorState))
    {
      table := seq(MAX_STATES, i => seq(MAX_LEXEMES, j => ErrorState));
    }

    method AddTransition(s: State, l: Lexeme, next: State)
      requires Complete(table)
      modifies this
      ensures table == old(table)[Row(s) := old(table)[Row(s)][Column(l) := next]] && Complete(table)
    {
      table := table[Row(s) := table[Row(s)][Column(l) := next]];
    }

    method InitTransitions()
      modifies this
      ensures Shipped(table)
    {
      hide Shipped;
      GenerateTransitionTable();
      InitIntegers();
      InitWords();
      InitStrings();
      RowsShipped(table);
    }

    method InitIntegers()
      requires |table| == MAX_STATES && forall i | 0 <= i < MAX_STATES :: table[i] == BLANK
      modifies this
      ensures Complete(table) && table == old(table)[0 := table[0]][3 := table[3]][4 := table[4]]
      ensures table[0] == BLANK[1 := Int][5 := IntNeg]
      ensures table[3] == BLANK[0 := SyntaxError][1 := Int] && table[4] == BLANK[1 := Int]
    {
      AddTransition(Start, Digit, Int);
      AddTransition(Int, Digit, Int);
      AddTransition(Start, Minus, IntNeg);
      AddTransition(IntNeg, Digit, Int);
      AddTransition(Int, Letter, SyntaxError);
    }

    method InitWords()
      requires Complete(table) && table[0] == BLANK[1 := Int][5 := IntNeg]
      requires table[5] == BLANK && table[6] == BLANK
      modifies this
      ensures Complete(table) && table == old(table)[0 := table[0]][5 := table[5]][6 := table[6]]
      ensures table[0] == BLANK[0 := Iden][1 := Int][2 := Ws][3 := Ws][5 := IntNeg]
      ensures table[5] == BLANK[0 := Iden] && table[6] == BLANK[2 := Ws][3 := Ws]
    {
      AddTransition(Start, Letter, Iden);
      AddTransition(Iden, Letter, Iden);

      AddTransition(Start, Space, Ws);
      AddTransition(Start, Newline, Ws);
      AddTransition(Ws, Space, Ws);
      AddTransition(Ws, Newline, Ws);
    }

    method InitStrings()
      requires Complete(table) && table[7] == BLANK
      modifies this
      ensures Complete(table) && table == old(table)[0 := table[0]][7 := table[7]]
      ensures table[0] == old(table[0])[4 := String1]
      ensures table[7] == [String1, String1, String1, String1, String2, ErrorState, String1]
    {
      AddTransition(Start, Quotation, String1);

      AddTransition(String1, Letter, String1);
      AddTransition(String1, Digit, String1);
      AddTransition(String1, Space, String1);
      AddTransition(String1, Newline, String1);
      AddTransition(String1, Unknown, String1);
      AddTransition(String1, Quotation, String2);
    }
  }

  lemma RowsShipped(t: Table)
    requires Complete(t)
    requires t[0] == [Iden, Int, Ws, Ws, String1, IntNeg, ErrorState]
    requires t[3] == BLANK[0 := SyntaxError][1 := Int] && t[4] == BLANK[1 := Int]
    requires t[5] == BLANK[0 := Iden] && t[6] == BLANK[2 := Ws][3 := Ws]
    requires t[7] == [String1, String1, String1, String1, String2, ErrorState, String1]
    requires t[2] == BLANK && t[8] == BLANK
    ensures Shipped(t)
  {
  }
}
