/** The client's command line: from tokens to packages and settings. */
module CommandLines {
  import opened Packages
  import opened Dfsa
  import opened Lexing
  import opened CommandText
  import opened Scanner

  const NO_SELECTION := -1

  /** The client fields that commands read and write, and the packages sent to the server. */
  datatype Session = Session(
    tool: TokenKind, colour: Colour, selectId: int, show: TokenKind, userId: int,
    shouldRender: bool, killFlag: bool, sent: seq<Package>)

  /** No integer is outside the range of `stoi`, whose exception nobody catches. */
  predicate NumbersFit(ts: seq<Token>) {
    forall i | 0 <= i < |ts| && ts[i].kind == INTEGER :: Stoi(ts[i].lexeme).Some?
  }

  predicate AreIntegers(ts: seq<Token>, from: nat, to: nat) {
    forall i | from <= i < to :: i < |ts| && ts[i].kind == INTEGER
  }

  function IntAt(ts: seq<Token>, i: nat): int
    requires NumbersFit(ts) && i < |ts| && ts[i].kind == INTEGER
  {
    Stoi(ts[i].lexeme).value
  }

  const EMPTY_ITEM := DrawData(-1, 0, Nothing)

  /** The grammar of `draw` for each tool; anything else gives the empty item. */
  function CreateDrawItem(tool: TokenKind, colour: Colour, userId: int, ts: seq<Token>): DrawData
    requires NumbersFit(ts)
  {
    match tool
    case CIRCLE =>
      if !(4 <= |ts| <= 5) || !AreIntegers(ts, 1, 4) || (|ts| == 5 && ts[4].kind != FILL) then EMPTY_ITEM
      else DrawData(userId, 0, Circle(IntAt(ts, 1), IntAt(ts, 2), IntAt(ts, 3), |ts| == 5, colour))
    case RECTANGLE =>
      if !(5 <= |ts| <= 6) || !AreIntegers(ts, 1, 5) || (|ts| == 6 && ts[5].kind != FILL) then EMPTY_ITEM
      else DrawData(userId, 0,
                    Rectangle(IntAt(ts, 1), IntAt(ts, 2), IntAt(ts, 3), IntAt(ts, 4), |ts| == 6, colour))
    case LINE =>
      if |ts| != 5 || !AreIntegers(ts, 1, 5) then EMPTY_ITEM
      else DrawData(userId, 0, Line(IntAt(ts, 1), IntAt(ts, 2), IntAt(ts, 3), IntAt(ts, 4), colour))
    case TEXT =>
      if |ts| != 4 || !AreIntegers(ts, 1, 3) || ts[3].kind != STRING then EMPTY_ITEM
      else DrawData(userId, 0, Text(IntAt(ts, 1), IntAt(ts, 2), ts[3].lexeme, colour))
    case _ => EMPTY_ITEM
  }

  function Send(s: Session, p: Package): Session {
    s.(sent := s.sent + [p])
  }

  function HandleTool(s: Session, ts: seq<Token>): Session {
    if |ts| == 2 && ts[1].kind in {LINE, RECTANGLE, CIRCLE, TEXT} then s.(tool := ts[1].kind) else s
  }

  /** Each component is cast to `unsigned char`. */
  function HandleColour(s: Session, ts: seq<Token>): Session
    requires NumbersFit(ts)
  {
    if |ts| == 4 && AreIntegers(ts, 1, 4) then
      s.(colour := Colour(IntAt(ts, 1) % 256, IntAt(ts, 2) % 256, IntAt(ts, 3) % 256, 255))
    else s
  }

  function HandleDraw(s: Session, ts: seq<Token>): Session
    requires NumbersFit(ts)
  {
    var item := CreateDrawItem(s.tool, s.colour, s.userId, ts);
    if s.selectId == NO_SELECTION then Send(s, Insert(item))
    else Send(s, Edit(s.selectId, item)).(selectId := NO_SELECTION)
  }

  function HandleSelect(s: Session, ts: seq<Token>): Session
    requires NumbersFit(ts)
  {
    if |ts| != 2 then s
    else if ts[1].kind == INTEGER then s.(selectId := IntAt(ts, 1))
    else if ts[1].kind == NONE then s.(selectId := NO_SELECTION)
    else s
  }

  function HandleDelete(s: Session, ts: seq<Token>): Session
    requires NumbersFit(ts)
  {
    if |ts| == 2 && ts[1].kind == INTEGER then Send(s, Remove(IntAt(ts, 1))) else s
  }

  function HandleUndo(s: Session, ts: seq<Token>): Session {
    if |ts| == 1 then Send(s, Undo(s.userId)) else s
  }

  function HandleShow(s: Session, ts: seq<Token>): Session {
    if |ts| == 2 && ts[1].kind in {ALL, MINE} then s.(show := ts[1].kind, shouldRender := true) else s
  }

  function HandleClear(s: Session, ts: seq<Token>): Session {
    if |ts| != 2 then s
    else if ts[1].kind == ALL then Send(s, Clear(EVERYONE))
    else if ts[1].kind == MINE then Send(s, Clear(s.userId))
    else s
  }

  /** Help, list and unknown commands only print. */
  function Dispatch(s: Session, ts: seq<Token>): Session
    requires NumbersFit(ts)
  {
    if ts == [] then s
    else
      match ts[0].kind
      case TOOL => HandleTool(s, ts)
      case COLOUR => HandleColour(s, ts)
      case DRAW => HandleDraw(s, ts)
      case SELECT => HandleSelect(s, ts)
      case DELETE => HandleDelete(s, ts)
      case UNDO => HandleUndo(s, ts)
      case SHOW => HandleShow(s, ts)
      case CLEAR => HandleClear(s, ts)
      case EXIT => s.(killFlag := true)
      case _ => s
  }

  class CommandLine {
    const lexer: Lexer
    const userId: int
    var currentTool: TokenKind
    var currentColour: Colour
    var selectId: int
    var currentShow: TokenKind
    var shouldRender: bool
    var killFlag: bool
    var sent: seq<Package>

    function State(): Session
      reads this
    {
      Session(currentTool, currentColour, selectId, currentShow, userId, shouldRender, killFlag, sent)
    }

    constructor (user: int)
      ensures fresh(lexer) && fresh(lexer.dfsa)
      ensures Shipped(lexer.dfsa.table) && lexer.tokenMap == SHIPPED_TOKENS
      ensures State() == Session(RECTANGLE, Colour(0, 0, 0, 255), NO_SELECTION, ALL, user, true, false, [])
    {
      lexer := new Lexer();
      userId, currentTool, currentColour := user, RECTANGLE, Colour(0, 0, 0, 255);
      selectId, currentShow, shouldRender, killFlag, sent := NO_SELECTION, ALL, true, false, [];
    }

    method SendMessage(p: Package)
      modifies this`sent
      ensures sent == old(sent) + [p]
    {
      sent := sent + [p];
    }

    method TypeTool(ts: seq<Token>)
      modifies this`currentTool
      ensures State() == HandleTool(old(State()), ts)
    {
      if |ts| != 2 {
        return;
      }
      if ts[1].kind != LINE && ts[1].kind != RECTANGLE && ts[1].kind != CIRCLE && ts[1].kind != TEXT {
        return;
      }
      currentTool := ts[1].kind;
    }

    method TypeColour(ts: seq<Token>)
      requires NumbersFit(ts)
      modifies this`currentColour
      ensures State() == HandleColour(old(State()), ts)
    {
      if |ts| != 4 {
        return;
      }
      if ts[1].kind != INTEGER || ts[2].kind != INTEGER || ts[3].kind != INTEGER {
        return;
      }
      var r, g, b := Stoi(ts[1].lexeme), Stoi(ts[2].lexeme), Stoi(ts[3].lexeme);
      currentColour := currentColour.(r := r.value % 256);
      currentColour := currentColour.(g := g.value % 256);
      currentColour := currentColour.(b := b.value % 256);
      currentColour := currentColour.(a := 255);
    }

    method TypeDraw(ts: seq<Token>)
      requires NumbersFit(ts)
      modifies this`selectId, this`sent
      ensures State() == HandleDraw(old(State()), ts)
    {
      var item := CreateDrawItem(currentTool, currentColour, userId, ts);
      var package := Insert(item);
      if selectId != NO_SELECTION {
        package := Edit(selectId, item);
        selectId := NO_SELECTION;
      }
      SendMessage(package);
    }

    method TypeSelect(ts: seq<Token>)
      requires NumbersFit(ts)
      modifies this`selectId
      ensures State() == HandleSelect(old(State()), ts)
    {
      if |ts| != 2 || (ts[1].kind != INTEGER && ts[1].kind != NONE) {
        return;
      }
      if ts[1].kind == INTEGER {
        selectId := Stoi(ts[1].lexeme).value;
      } else {
        selectId := NO_SELECTION;
      }
    }

    method TypeDelete(ts: seq<Token>)
      requires NumbersFit(ts)
      modifies this`sent
      ensures State() == HandleDelete(old(State()), ts)
    {
      if |ts| != 2 || ts[1].kind != INTEGER {
        return;
      }
      SendMessage(Remove(Stoi(ts[1].lexeme).value));
    }

    method TypeUndo(ts: seq<Token>)
      modifies this`sent
      ensures State() == HandleUndo(old(State()), ts)
    {
      if |ts| != 1 {
        return;
      }
      SendMessage(Undo(userId));
    }

    method TypeShow(ts: seq<Token>)
      modifies this`currentShow, this`shouldRender
      ensures State() == HandleShow(old(State()), ts)
    {
      if |ts| != 2 || (ts[1].kind != ALL && ts[1].kind != MINE) {
        return;
      }
      currentShow := ts[1].kind;
      shouldRender := true;
    }

    method TypeClear(ts: seq<Token>)
      modifies this`sent
      ensures State() == HandleClear(old(State()), ts)
    {
      if |ts| != 2 {
        return;
      }
      if ts[1].kind == ALL {
        SendMessage(Clear(EVERYONE));
      } else if ts[1].kind == MINE {
        SendMessage(Clear(userId));
      }
    }

    /** `parse_input`: a line that does not tokenise changes nothing. */
    method ParseInput(input: string)
      requires Shipped(lexer.dfsa.table) && lexer.tokenMap == SHIPPED_TOKENS && '\U{ff}' !in input
      requires Scan(input).Some? ==> NumbersFit(Scan(input).value)
      modifies this
      ensures State() == match Scan(input)
                         case None => old(State())
                         case Some(ts) => Dispatch(old(State()), ts)
    {
      ScanExactly(lexer.dfsa.table, input);
      hide Shipped, Scan, Tokens, NumbersFit, HandleTool, HandleColour, HandleDraw, HandleSelect, HandleDelete, HandleUndo,
        HandleShow, HandleClear;
      var r;
      ghost var calls;
      r, calls := lexer.GenerateTokens(input);
      if r.None? || r.value == [] {
        return;
      }
      var ts := r.value;
      match ts[0].kind
      case TOOL => TypeTool(ts);
      case COLOUR => TypeColour(ts);
      case DRAW => TypeDraw(ts);
      case SELECT => TypeSelect(ts);
      case DELETE => TypeDelete(ts);
      case UNDO => TypeUndo(ts);
      case SHOW => TypeShow(ts);
      case CLEAR => TypeClear(ts);
      case EXIT => killFlag := true;
      case _ =>
    }
  }

  lemma ShippedProper(t: Table)
    requires Shipped(t)
    ensures Proper(t, SHIPPED_TOKENS)
  {
  }

  // ---------------------------------------------------------------- what the user means

  datatype Command =
    | SetTool(tool: TokenKind)
    | SetColour(r: int, g: int, b: int)
    | DrawShape(item: DrawItem)
    | SelectItem(choice: Option<int>)
    | DeleteItem(id: int)
    | UndoLast
    | ShowItems(whose: TokenKind)
    | ClearItems(whose: TokenKind)
    | Quit

  predicate Is32(n: int) {
    -0x8000_0000 <= n < 0x8000_0000
  }

  function ToolFor(item: DrawItem): TokenKind {
    match item
    case Nothing => NONE
    case Circle(_, _, _, _, _) => CIRCLE
    case Line(_, _, _, _, _) => LINE
    case Rectangle(_, _, _, _, _, _) => RECTANGLE
    case Text(_, _, _, _) => TEXT
  }

  /** An item that the session's tool and colour draw. */
  predicate Drawable(item: DrawItem, s: Session) {
    !item.Nothing? && ToolFor(item) == s.tool && item.colour == s.colour
  }

  /** The command makes sense in the session. */
  predicate Meant(c: Command, s: Session) {
    match c
    case SetTool(tool) => tool in {LINE, RECTANGLE, CIRCLE, TEXT}
    case SetColour(r, g, b) => 0 <= r < 256 && 0 <= g < 256 && 0 <= b < 256
    case DrawShape(item) => Drawable(item, s)
    case ShowItems(whose) => whose in {ALL, MINE}
    case ClearItems(whose) => whose in {ALL, MINE}
    case _ => true
  }

  /** It can also be typed: the numbers fit, and the text can be quoted. */
  predicate CommandOk(c: Command, s: Session) {
    Meant(c, s) &&
    match c
    case DrawShape(Circle(x, y, radius, _, _)) => Is32(x) && Is32(y) && Is32(radius)
    case DrawShape(Line(x, y, xTo, yTo, _)) => Is32(x) && Is32(y) && Is32(xTo) && Is32(yTo)
    case DrawShape(Rectangle(x, y, width, height, _, _)) => Is32(x) && Is32(y) && Is32(width) && Is32(height)
    case DrawShape(Text(x, y, text, _)) =>
      Is32(x) && Is32(y) && '"' !in text && '-' !in text && '\U{ff}' !in text
    case SelectItem(Some(id)) => Is32(id)
    case DeleteItem(id) => Is32(id)
    case _ => true
  }

  /** What the command is for, in terms of the session. */
  function Intended(c: Command, s: Session): Session {
    match c
    case SetTool(tool) => s.(tool := tool)
    case SetColour(r, g, b) => s.(colour := Colour(r, g, b, 255))
    case DrawShape(item) =>
      var data := DrawData(s.userId, 0, item);
      if s.selectId == -1 then s.(sent := s.sent + [Insert(data)])
      else s.(sent := s.sent + [Edit(s.selectId, data)], selectId := -1)
    case SelectItem(Some(id)) => s.(selectId := id)
    case SelectItem(None) => s.(selectId := -1)
    case DeleteItem(id) => s.(sent := s.sent + [Remove(id)])
    case UndoLast => s.(sent := s.sent + [Undo(s.userId)])
    case ShowItems(whose) => s.(show := whose, shouldRender := true)
    case ClearItems(whose) => s.(sent := s.sent + [Clear(if whose == ALL then -1 else s.userId)])
    case Quit => s.(killFlag := true)
  }

  function KeyWord(kind: TokenKind, spell: TokenKind -> string): Word {
    Key(kind, spell(kind))
  }

  function ShapeWords(item: DrawItem, spell: TokenKind -> string): seq<Word> {
    match item
    case Circle(x, y, radius, filled, _) =>
      [KeyWord(DRAW, spell), Num(x), Num(y), Num(radius)] + FillWord(filled, spell)
    case Line(x, y, xTo, yTo, _) =>
      [KeyWord(DRAW, spell), Num(x), Num(y), Num(xTo), Num(yTo)]
    case Rectangle(x, y, width, height, filled, _) =>
      [KeyWord(DRAW, spell), Num(x), Num(y), Num(width), Num(height)] + FillWord(filled, spell)
    case Text(x, y, text, _) =>
      [KeyWord(DRAW, spell), Num(x), Num(y), Quoted(text)]
    case Nothing => [KeyWord(DRAW, spell)]
  }

  function FillWord(filled: bool, spell: TokenKind -> string): seq<Word> {
    if filled then [KeyWord(FILL, spell)] else []
  }

  function ColourWords(r: int, g: int, b: int, spell: TokenKind -> string): seq<Word> {
    [KeyWord(COLOUR, spell), Num(r), Num(g), Num(b)]
  }

  /** The words of a command, in the forms of the test scripts, with keywords spelled as `spell` says. */
  function Words(c: Command, spell: TokenKind -> string): seq<Word> {
    match c
    case SetTool(tool) => [KeyWord(TOOL, spell), KeyWord(tool, spell)]
    case SetColour(r, g, b) => ColourWords(r, g, b, spell)
    case DrawShape(item) => ShapeWords(item, spell)
    case SelectItem(Some(id)) => [KeyWord(SELECT, spell), Num(id)]
    case SelectItem(None) => [KeyWord(SELECT, spell), KeyWord(NONE, spell)]
    case DeleteItem(id) => [KeyWord(DELETE, spell), Num(id)]
    case UndoLast => [KeyWord(UNDO, spell)]
    case ShowItems(whose) => [KeyWord(SHOW, spell), KeyWord(whose, spell)]
    case ClearItems(whose) => [KeyWord(CLEAR, spell), KeyWord(whose, spell)]
    case Quit => [KeyWord(EXIT, spell)]
  }

  /** Every keyword is spelled in some mixture of cases. */
  ghost predicate Spells(spell: TokenKind -> string) {
    forall kind: TokenKind | Keyword(kind) != "" :: SameButCase(spell(kind), Keyword(kind))
  }

  lemma OkIsMeant(c: Command, s: Session)
    ensures CommandOk(c, s) ==> Meant(c, s)
  {
  }

  lemma AllOkEach(ws: seq<Word>)
    requires AllOk(ws)
    ensures forall w | w in ws :: WordOk(w)
  {
  }

  /** Every number that a well-formed command shows is one that `stoi` reads. */
  lemma NumbersOfWordsFit(ws: seq<Word>)
    requires AllOk(ws)
    ensures Shows(TokensFor(ws), ws)
  {
    forall i | 0 <= i < |ws|
      ensures TokensFor(ws)[i].kind == INTEGER ==> Stoi(TokensFor(ws)[i].lexeme).Some?
      ensures ws[i].Num? ==> Stoi(TokenFor(ws[i]).lexeme) == Some(ws[i].n)
    {
      assert ws[i] in ws;
      if ws[i].Num? {
        IntRoundTrip(ws[i].n);
      } else if ws[i].Key? {
        SpellingIsLetters(ws[i]);
      }
    }
  }

  /** The tokens show the numbers of the words that they came from. */
  ghost predicate Shows(ts: seq<Token>, ws: seq<Word>) {
    && NumbersFit(ts) && |ts| == |ws|
    && forall i | 0 <= i < |ws| ::
         && ts[i].kind == (match ws[i] case Key(kind, _) => kind case Num(_) => INTEGER case Quoted(_) => STRING)
         && (ws[i].Num? ==> Stoi(ts[i].lexeme) == Some(ws[i].n))
         && (ws[i].Quoted? ==> ts[i].lexeme == ws[i].text)
  }

  lemma DrawMeans(item: DrawItem, s: Session, spell: TokenKind -> string, ts: seq<Token>)
    requires Drawable(item, s) && Shows(ts, ShapeWords(item, spell))
    ensures CreateDrawItem(s.tool, s.colour, s.userId, ts) == DrawData(s.userId, 0, item)
    ensures ts != [] && ts[0].kind == DRAW
  {
    hide Stoi, KeyWord;
    var ws := ShapeWords(item, spell);
    assert ws[0] == KeyWord(DRAW, spell) && KeyWord(DRAW, spell).kind == DRAW by { KeyWordIs(DRAW, spell); }
    KeyWordIs(FILL, spell);
    match item
    case Circle(x, y, radius, filled, _) =>
      assert ws[1] == Num(x) && ws[2] == Num(y) && ws[3] == Num(radius);
    case Line(x, y, xTo, yTo, _) =>
      assert ws[1] == Num(x) && ws[2] == Num(y) && ws[3] == Num(xTo) && ws[4] == Num(yTo);
    case Rectangle(x, y, width, height, filled, _) =>
      assert ws[1] == Num(x) && ws[2] == Num(y) && ws[3] == Num(width) && ws[4] == Num(height);
    case Text(x, y, text, _) =>
      assert ws[1] == Num(x) && ws[2] == Num(y) && ws[3] == Quoted(text);
  }

  /** An accepted draw line shows the words of the item that it gives. */
  lemma DrawnIsShown(s: Session, spell: TokenKind -> string, ts: seq<Token>)
    requires NumbersFit(ts) && ts != [] && ts[0].kind == DRAW
    requires !CreateDrawItem(s.tool, s.colour, s.userId, ts).item.Nothing?
    ensures var item := CreateDrawItem(s.tool, s.colour, s.userId, ts).item;
            Drawable(item, s) && Shows(ts, ShapeWords(item, spell))
  {
    hide Stoi, KeyWord;
    KeyWordIs(DRAW, spell);
    KeyWordIs(FILL, spell);
  }

  /**
   `draw` accepts exactly the lines that spell out an item for the current tool and colour, and gives that item. Any
   other line gives the empty item of nobody, which is sent all the same.
   */
  lemma DrawGrammarExactly(s: Session, spell: TokenKind -> string, ts: seq<Token>)
    requires NumbersFit(ts) && ts != [] && ts[0].kind == DRAW
    ensures var r := CreateDrawItem(s.tool, s.colour, s.userId, ts);
            && Dispatch(s, ts) == s.(sent := s.sent + [if s.selectId == -1 then Insert(r) else Edit(s.selectId, r)],
                                     selectId := -1)
            && (forall item | Drawable(item, s) ::
                  Shows(ts, ShapeWords(item, spell)) <==> r == DrawData(s.userId, 0, item))
            && ((forall item | Drawable(item, s) :: !Shows(ts, ShapeWords(item, spell))) ==> r == DrawData(-1, 0, Nothing))
  {
    var r := CreateDrawItem(s.tool, s.colour, s.userId, ts);
    forall item | Drawable(item, s)
      ensures Shows(ts, ShapeWords(item, spell)) <==> r == DrawData(s.userId, 0, item)
    {
      if Shows(ts, ShapeWords(item, spell)) {
        DrawMeans(item, s, spell, ts);
      } else if r == DrawData(s.userId, 0, item) {
        DrawnIsShown(s, spell, ts);
      }
    }
    if forall item | Drawable(item, s) :: !Shows(ts, ShapeWords(item, spell)) {
      if !r.item.Nothing? {
        DrawnIsShown(s, spell, ts);
      }
      assert r == EMPTY_ITEM;
    }
  }

  lemma KeyWordIs(kind: TokenKind, spell: TokenKind -> string)
    ensures KeyWord(kind, spell).Key? && KeyWord(kind, spell).kind == kind
  {
  }

  lemma ColourMeans(r: int, g: int, b: int, s: Session, spell: TokenKind -> string, ts: seq<Token>)
    requires Meant(SetColour(r, g, b), s) && Shows(ts, Words(SetColour(r, g, b), spell))
    ensures Dispatch(s, ts) == Intended(SetColour(r, g, b), s)
  {
    hide Stoi, CreateDrawItem, ShapeWords;
    var ws := Words(SetColour(r, g, b), spell);
    assert ws[1] == Num(r) && ws[2] == Num(g) && ws[3] == Num(b);
  }

  /** Dispatching the tokens of a command that makes sense does what the command is for. */
  lemma DispatchMeans(c: Command, s: Session, spell: TokenKind -> string, ts: seq<Token>)
    requires Meant(c, s) && Shows(ts, Words(c, spell))
    ensures Dispatch(s, ts) == Intended(c, s)
  {
    hide Stoi, CreateDrawItem, ShapeWords;
    match c
    case DrawShape(item) => DrawMeans(item, s, spell, ts);
    case SetColour(r, g, b) => ColourMeans(r, g, b, s, spell, ts);
    case _ =>
      var ws := Words(c, spell);
      assert ts[0].kind == ws[0].kind;
  }

  /** A line without draw, colour and exit does nothing, unless it shows a command that makes sense. */
  lemma ActsOnCommandsOnly(s: Session, spell: TokenKind -> string, ts: seq<Token>) returns (c: Command)
    requires NumbersFit(ts) && Dispatch(s, ts) != s && ts[0].kind !in {DRAW, COLOUR, EXIT}
    ensures Meant(c, s) && Shows(ts, Words(c, spell))
  {
    hide Stoi, CreateDrawItem, ShapeWords;
    match ts[0].kind
    case TOOL => c := SetTool(ts[1].kind);
    case SELECT => c := SelectItem(if ts[1].kind == INTEGER then Some(IntAt(ts, 1)) else None);
    case DELETE => c := DeleteItem(IntAt(ts, 1));
    case UNDO => c := UndoLast;
    case SHOW => c := ShowItems(ts[1].kind);
    case CLEAR => c := ClearItems(ts[1].kind);
  }

  /** Three integers of any size are taken modulo 256. */
  lemma AnyColour(s: Session, spell: TokenKind -> string, ts: seq<Token>, r: int, g: int, b: int)
    requires NumbersFit(ts) && Shows(ts, ColourWords(r, g, b, spell))
    ensures Dispatch(s, ts) == s.(colour := Colour(r % 256, g % 256, b % 256, 255))
  {
    hide Stoi, CreateDrawItem;
    var ws := ColourWords(r, g, b, spell);
    assert ws[1] == Num(r) && ws[2] == Num(g) && ws[3] == Num(b);
  }

  /** Any other colour line does nothing. */
  lemma ColourActsOnly(s: Session, spell: TokenKind -> string, ts: seq<Token>) returns (r: int, g: int, b: int)
    requires NumbersFit(ts) && Dispatch(s, ts) != s && ts[0].kind == COLOUR
    ensures Shows(ts, ColourWords(r, g, b, spell))
  {
    hide Stoi, CreateDrawItem;
    r, g, b := IntAt(ts, 1), IntAt(ts, 2), IntAt(ts, 3);
  }

  /**
   What a line does, whatever it is: what the command that it shows is for, and otherwise nothing, except that draw
   sends the empty item, colour takes any integers modulo 256, and exit disregards what follows it.
   */
  lemma LinesExactly(s: Session, spell: TokenKind -> string, ts: seq<Token>)
    requires NumbersFit(ts)
    ensures forall c | Meant(c, s) && Shows(ts, Words(c, spell)) :: Dispatch(s, ts) == Intended(c, s)
    ensures (forall c | Meant(c, s) :: !Shows(ts, Words(c, spell))) && ts != [] ==>
              match ts[0].kind
              case DRAW => Dispatch(s, ts)
                        == s.(sent := s.sent + [if s.selectId == -1 then Insert(DrawData(-1, 0, Nothing))
                                                else Edit(s.selectId, DrawData(-1, 0, Nothing))], selectId := -1)
              case COLOUR =>
                && (forall r, g, b | Shows(ts, ColourWords(r, g, b, spell)) ::
                      Dispatch(s, ts) == s.(colour := Colour(r % 256, g % 256, b % 256, 255)))
                && ((forall r, g, b :: !Shows(ts, ColourWords(r, g, b, spell))) ==> Dispatch(s, ts) == s)
              case EXIT => Dispatch(s, ts) == s.(killFlag := true)
              case _ => Dispatch(s, ts) == s
    ensures ts == [] ==> Dispatch(s, ts) == s
  {
    hide Shows, Words, ColourWords, Dispatch, Intended, Meant, NumbersFit;
    forall c | Meant(c, s) && Shows(ts, Words(c, spell))
      ensures Dispatch(s, ts) == Intended(c, s)
    {
      DispatchMeans(c, s, spell, ts);
    }
    if ts == [] || ts[0].kind == EXIT {
      EmptyOrExit(s, ts);
    } else if ts[0].kind == DRAW {
      DrawLine(s, spell, ts);
    } else if ts[0].kind == COLOUR {
      ColourLine(s, spell, ts);
    } else if Dispatch(s, ts) != s {
      var c := ActsOnCommandsOnly(s, spell, ts);
    }
  }

  lemma EmptyOrExit(s: Session, ts: seq<Token>)
    requires NumbersFit(ts)
    ensures ts == [] ==> Dispatch(s, ts) == s
    ensures ts != [] && ts[0].kind == EXIT ==> Dispatch(s, ts) == s.(killFlag := true)
  {
  }

  lemma ColourLine(s: Session, spell: TokenKind -> string, ts: seq<Token>)
    requires NumbersFit(ts) && ts != [] && ts[0].kind == COLOUR
    ensures forall r, g, b | Shows(ts, ColourWords(r, g, b, spell)) ::
              Dispatch(s, ts) == s.(colour := Colour(r % 256, g % 256, b % 256, 255))
    ensures (forall r, g, b :: !Shows(ts, ColourWords(r, g, b, spell))) ==> Dispatch(s, ts) == s
  {
    hide Shows, Dispatch, ColourWords;
    forall r, g, b | Shows(ts, ColourWords(r, g, b, spell))
      ensures Dispatch(s, ts) == s.(colour := Colour(r % 256, g % 256, b % 256, 255))
    {
      AnyColour(s, spell, ts, r, g, b);
    }
    if Dispatch(s, ts) != s {
      var r, g, b := ColourActsOnly(s, spell, ts);
    }
  }

  lemma DrawLine(s: Session, spell: TokenKind -> string, ts: seq<Token>)
    requires NumbersFit(ts) && ts != [] && ts[0].kind == DRAW
    ensures (forall c | Meant(c, s) :: !Shows(ts, Words(c, spell))) ==>
              Dispatch(s, ts) == s.(sent := s.sent + [if s.selectId == -1 then Insert(DrawData(-1, 0, Nothing))
                                                      else Edit(s.selectId, DrawData(-1, 0, Nothing))], selectId := -1)
  {
    hide CreateDrawItem, Shows, Dispatch;
    DrawGrammarExactly(s, spell, ts);
    forall item | Drawable(item, s)
      ensures Meant(DrawShape(item), s) && Words(DrawShape(item), spell) == ShapeWords(item, spell)
    {
    }
  }

  predicate AllOk(ws: seq<Word>) {
    forall i | 0 <= i < |ws| :: WordOk(ws[i]) && (ws[i].Num? ==> Is32(ws[i].n))
  }

  lemma ShapeWordsOk(item: DrawItem, s: Session, spell: TokenKind -> string)
    requires CommandOk(DrawShape(item), s) && Spells(spell)
    ensures AllOk(ShapeWords(item, spell))
  {
    SpelledOk(spell, DRAW);
    SpelledOk(spell, FILL);
    hide ToUpper, WordOk, Keyword, KeyWord, Spells;
    NumsOk();
    QuotedOk();
  }

  lemma SpelledOk(spell: TokenKind -> string, kind: TokenKind)
    requires Spells(spell)
    ensures Keyword(kind) != "" ==> WordOk(KeyWord(kind, spell)) && !KeyWord(kind, spell).Num?
  {
  }

  lemma NumsOk()
    ensures forall n {:trigger WordOk(Num(n))} :: WordOk(Num(n))
  {
  }

  lemma QuotedOk()
    ensures forall text {:trigger WordOk(Quoted(text))} :: '"' !in text && '-' !in text ==> WordOk(Quoted(text))
  {
  }

  lemma AllSpelled(spell: TokenKind -> string)
    requires Spells(spell)
    ensures forall kind: TokenKind | Keyword(kind) != "" ::
              WordOk(KeyWord(kind, spell)) && !KeyWord(kind, spell).Num?
  {
    forall kind: TokenKind | Keyword(kind) != ""
      ensures WordOk(KeyWord(kind, spell)) && !KeyWord(kind, spell).Num?
    {
      SpelledOk(spell, kind);
    }
  }

  lemma WordsOk(c: Command, s: Session, spell: TokenKind -> string)
    requires CommandOk(c, s) && Spells(spell)
    ensures Words(c, spell) != [] && AllOk(Words(c, spell))
  {
    hide ToUpper, WordOk, Keyword, KeyWord, ShapeWords, Spells;
    AllSpelled(spell);
    KeywordsThere();
    NumsOk();
    match c
    case DrawShape(item) =>
      ShapeWordsOk(item, s, spell);
      assert ShapeWords(item, spell) != [] by { ShapeHasWords(item, spell); }
    case _ =>
  }

  lemma ShapeHasWords(item: DrawItem, spell: TokenKind -> string)
    ensures ShapeWords(item, spell) != []
  {
  }

  lemma KeywordsThere()
    ensures forall kind: TokenKind {:trigger Keyword(kind)} ::
              kind in {IDENTIFIER, INTEGER, WHITESPACE, STRING} || Keyword(kind) != ""
  {
  }

  /**
   Typing a well-formed command does exactly what it is for, whatever the state of the session and in whatever case
   the keywords are typed.
   */
  lemma CommandRoundTrip(t: Table, c: Command, s: Session, spell: TokenKind -> string)
    requires Shipped(t) && CommandOk(c, s) && Spells(spell)
    ensures var ts := Tokens(t, SHIPPED_TOKENS, LineOf(Words(c, spell)));
            ts.Some? && NumbersFit(ts.value) && Dispatch(s, ts.value) == Intended(c, s)
  {
    hide *;
    ShippedProper(t);
    WordsOk(c, s, spell);
    AllOkEach(Words(c, spell));
    LineTokens(t, Words(c, spell));
    NumbersOfWordsFit(Words(c, spell));
    OkIsMeant(c, s);
    DispatchMeans(c, s, spell, TokensFor(Words(c, spell)));
  }

  // ---------------------------------------------------------------- typing a command

  predicate Readable(w: Word) {
    '\U{ff}' !in TextOf(w)
  }

  lemma KeyReadable(w: Word)
    requires w.Key? && WordOk(w)
    ensures Readable(w)
  {
    hide Keyword;
    SpellingIsLetters(w);
  }

  lemma NumReadable(n: int)
    ensures Readable(Num(n))
  {
    var digits := NatText(if n < 0 then -n else n);
    assert forall i | 0 <= i < |digits| :: IsDigit(digits[i]);
  }

  lemma QuotedWords(c: Command, s: Session, spell: TokenKind -> string, i: nat)
    requires CommandOk(c, s) && i < |Words(c, spell)| && Words(c, spell)[i].Quoted?
    ensures Readable(Words(c, spell)[i])
  {
    assert c.DrawShape? && c.item.Text?;
  }

  lemma {:induction false} LineReadable(ws: seq<Word>)
    requires forall i | 0 <= i < |ws| :: Readable(ws[i])
    ensures '\U{ff}' !in LineOf(ws)
  {
    if |ws| > 1 {
      assert forall i | 0 <= i < |ws[1..]| :: ws[1..][i] == ws[i + 1];
      LineReadable(ws[1..]);
    } else if |ws| == 1 {
      assert Readable(ws[0]);
    }
  }

  lemma CommandReadable(c: Command, s: Session, spell: TokenKind -> string)
    requires CommandOk(c, s) && Spells(spell)
    ensures '\U{ff}' !in LineOf(Words(c, spell))
  {
    hide CommandOk, Words, WordOk, Readable, LineOf;
    var ws := Words(c, spell);
    WordsOk(c, s, spell);
    forall i | 0 <= i < |ws|
      ensures Readable(ws[i])
    {
      match ws[i]
      case Key(_, _) => KeyReadable(ws[i]);
      case Num(n) => NumReadable(n);
      case Quoted(_) => QuotedWords(c, s, spell, i);
    }
    LineReadable(ws);
  }

  /** A user types a well-formed command, with keywords in any case, and presses return. */
  method TypeCommand(line: CommandLine, c: Command, spell: TokenKind -> string)
    requires Shipped(line.lexer.dfsa.table) && line.lexer.tokenMap == SHIPPED_TOKENS
    requires CommandOk(c, line.State()) && Spells(spell)
    modifies line
    ensures line.State() == Intended(c, old(line.State()))
  {
    hide *;
    CommandRoundTrip(line.lexer.dfsa.table, c, line.State(), spell);
    CommandReadable(c, line.State(), spell);
    ScanExactly(line.lexer.dfsa.table, LineOf(Words(c, spell)));
    line.ParseInput(LineOf(Words(c, spell)));
  }
}
