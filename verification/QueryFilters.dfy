/** Chains of query conditions: the text they print, the values they bind, and how the two agree. */
module QueryFilters {
  import opened Outcomes

  datatype Operator = OP_AND | OP_OR | OP_AND_NOT | OP_OR_NOT

  datatype Condition<+V> = Condition(prefix: string, fieldName: string, symbol: string, value: V) {
    function PrefixedName(): string {
      if prefix != "" then prefix + "." + fieldName else fieldName
    }

    /** The symbol mentions NULL: nothing is compared, so nothing is printed or bound. */
    predicate IsNullTest() {
      Contains(symbol, "NULL")
    }
  }

  datatype Filter<+V> = Tail(condition: Condition<V>) | Link(condition: Condition<V>, op: Operator, next: Filter<V>)

  predicate Contains(s: string, word: string) {
    |word| <= |s| && (s[..|word|] == word || (|s| > 0 && Contains(s[1..], word)))
  }

  function OperatorText(op: Operator): string {
    match op
    case OP_AND => "AND"
    case OP_OR => "OR"
    case OP_AND_NOT => "AND NOT"
    case OP_OR_NOT => "OR NOT"
  }

  // ---------------------------------------------------------------------------------------------
  // Printing and binding
  // ---------------------------------------------------------------------------------------------

  function PrintedCondition<V>(c: Condition<V>): string {
    if c.IsNullTest() then c.PrefixedName() + " " + c.symbol
    else c.PrefixedName() + " " + c.symbol + " " + (":" + c.fieldName)
  }

  function Printed<V>(f: Filter<V>): string {
    match f
    case Tail(c) => PrintedCondition(c)
    case Link(c, op, next) => PrintedCondition(c) + " " + OperatorText(op) + " " + Printed(next)
  }

  /** The conditions that have a placeholder, in chain order. */
  function Comparisons<V>(f: Filter<V>): seq<Condition<V>> {
    var later := if f.Tail? then [] else Comparisons(f.next);
    if f.condition.IsNullTest() then later else [f.condition] + later
  }

  class Stream {
    var text: string

    constructor ()
      ensures text == ""
    {
      text := "";
    }
  }

  class Statement<V> {
    var bound: seq<V>

    constructor ()
      ensures bound == []
    {
      bound := [];
    }
  }

  method PrintCondition<V>(c: Condition<V>, ss: Stream)
    modifies ss
    ensures ss.text == old(ss.text) + PrintedCondition(c)
  {
    if c.IsNullTest() {
      ss.text := ss.text + (c.PrefixedName() + " " + c.symbol);
    } else {
      ss.text := ss.text + (c.PrefixedName() + " " + c.symbol + " :" + c.fieldName);
      assert c.PrefixedName() + " " + c.symbol + " :" + c.fieldName == PrintedCondition(c);
    }
  }

  method PrintOperator(op: Operator, ss: Stream)
    modifies ss
    ensures ss.text == old(ss.text) + (" " + OperatorText(op) + " ")
  {
    match op {
      case OP_AND => ss.text := ss.text + " AND ";
      case OP_AND_NOT => ss.text := ss.text + " AND NOT ";
      case OP_OR => ss.text := ss.text + " OR ";
      case OP_OR_NOT => ss.text := ss.text + " OR NOT ";
    }
  }

  method ToString<V>(f: Filter<V>, ss: Stream)
    modifies ss
    ensures ss.text == old(ss.text) + Printed(f)
  {
    PrintCondition(f.condition, ss);
    if f.Link? {
      PrintOperator(f.op, ss);
      ToString(f.next, ss);
      LinkText(old(ss.text), PrintedCondition(f.condition), OperatorText(f.op), Printed(f.next));
    }
  }

  lemma LinkText(a: string, b: string, op: string, c: string)
    ensures a + b + (" " + op + " ") + c == a + (b + " " + op + " " + c)
  {
  }

  lemma SpaceText(b: string, op: string, c: string)
    ensures b + " " + (op + " " + c) == b + " " + op + " " + c == b + (" " + op + " ") + c
  {
  }

  /** The values of the comparisons. */
  function BoundValues<V>(f: Filter<V>): seq<V> {
    seq(|Comparisons(f)|, i requires 0 <= i < |Comparisons(f)| => Comparisons(f)[i].value)
  }

  method BindValue<V>(f: Filter<V>, statement: Statement<V>)
    modifies statement
    ensures statement.bound == old(statement.bound) + BoundValues(f)
  {
    if !f.condition.IsNullTest() {
      statement.bound := statement.bound + [f.condition.value];
    }
    if f.Link? {
      BindValue(f.next, statement);
    }
    BoundFromNext(f);
  }

  lemma BoundFromNext<V>(f: Filter<V>)
    ensures var later := if f.Tail? then [] else BoundValues(f.next);
      BoundValues(f) == if f.condition.IsNullTest() then later else [f.condition.value] + later
  {
  }

  // ---------------------------------------------------------------------------------------------
  // Reading the text back
  // ---------------------------------------------------------------------------------------------

  /** The words of a text, separated by single spaces. */
  function Split(s: string): (ws: seq<string>)
    ensures |ws| > 0
  {
    if |s| == 0 then [""]
    else
      var ws := Split(s[1..]);
      if s[0] == ' ' then [""] + ws else [[s[0]] + ws[0]] + ws[1..]
  }

  lemma {:induction false} SplitJoined(a: string, b: string)
    ensures Split(a + " " + b) == Split(a) + Split(b)
  {
    if |a| == 0 {
      assert (a + " " + b)[1..] == b;
    } else {
      assert (a + " " + b)[1..] == a[1..] + " " + b;
      SplitJoined(a[1..], b);
    }
  }

  lemma {:induction false} SplitWord(w: string)
    requires ' ' !in w
    ensures Split(w) == [w]
  {
    if |w| > 0 {
      SplitWord(w[1..]);
      assert [w[0]] + w[1..] == w;
    }
  }

  datatype Item = Item(name: string, symbol: seq<string>, placeholder: Option<string>)

  datatype Parsed = End(item: Item) | More(item: Item, op: Operator, next: Parsed)

  predicate EndsSymbol(w: string) {
    w == "NULL" || (|w| > 0 && w[0] == ':')
  }

  /** The first word from `i` on that ends a symbol: NULL, or a placeholder. */
  function SymbolEnd(ws: seq<string>, i: nat): (e: nat)
    requires i <= |ws|
    ensures i <= e <= |ws| && (e < |ws| ==> EndsSymbol(ws[e]))
    decreases |ws| - i
  {
    if i == |ws| || EndsSymbol(ws[i]) then i else SymbolEnd(ws, i + 1)
  }

  function ParseOperator(ws: seq<string>): Option<(Operator, nat)> {
    var negated := |ws| > 1 && ws[1] == "NOT";
    if |ws| == 0 then None
    else if ws[0] == "AND" then Some(if negated then (OP_AND_NOT, 2) else (OP_AND, 1))
    else if ws[0] == "OR" then Some(if negated then (OP_OR_NOT, 2) else (OP_OR, 1))
    else None
  }

  /** The first item, and the words after it. */
  function ReadItem(ws: seq<string>): (r: Option<(Item, seq<string>)>)
    ensures r.Some? ==> |r.value.1| < |ws|
  {
    if |ws| == 0 then None
    else
      var e := SymbolEnd(ws, 1);
      if e == |ws| then None
      else if ws[e] == "NULL" then Some((Item(ws[0], ws[1..e + 1], None), ws[e + 1..]))
      else Some((Item(ws[0], ws[1..e], Some(ws[e][1..])), ws[e + 1..]))
  }

  function Parse(ws: seq<string>): Option<Parsed>
    decreases |ws|
  {
    var first := ReadItem(ws);
    if first.None? then None
    else
      var (item, rest) := first.value;
      if rest == [] then Some(End(item))
      else
        var op := ParseOperator(rest);
        if op.None? || op.value.1 > |rest| then None
        else
          var next := Parse(rest[op.value.1..]);
          if next.None? then None else Some(More(item, op.value.0, next.value))
  }

  /** The name is a single word; a NULL test ends with its only NULL, and the symbol of a comparison has no
      word that looks like NULL or a placeholder. */
  predicate Plain<V>(c: Condition<V>) {
    && ' ' !in c.PrefixedName()
    && PlainSymbol(Split(c.symbol), c.IsNullTest())
  }

  predicate PlainSymbol(ws: seq<string>, nullTest: bool)
    requires |ws| > 0
  {
    && (forall i :: 0 <= i < |ws| - 1 ==> !EndsSymbol(ws[i]))
    && (if nullTest then ws[|ws| - 1] == "NULL" else !EndsSymbol(ws[|ws| - 1]))
  }

  predicate Bare(op: Operator) {
    op.OP_AND? || op.OP_OR?
  }

  /** All conditions are plain, and no name NOT could be taken for part of the operator before it. */
  predicate Readable<V>(f: Filter<V>) {
    && Plain(f.condition)
    && (f.Link? ==> Readable(f.next) && (Bare(f.op) ==> f.next.condition.PrefixedName() != "NOT"))
  }

  function ItemOf<V>(c: Condition<V>): Item {
    Item(c.PrefixedName(), Split(c.symbol), if c.IsNullTest() then None else Some(c.fieldName))
  }

  /** What the text should be read as. */
  function Skeleton<V>(f: Filter<V>): Parsed {
    match f
    case Tail(c) => End(ItemOf(c))
    case Link(c, op, next) => More(ItemOf(c), op, Skeleton(next))
  }

  function ConditionWords<V>(c: Condition<V>): seq<string> {
    [c.PrefixedName()] + Split(c.symbol) + if c.IsNullTest() then [] else [":" + c.fieldName]
  }

  lemma FieldIsInName<V>(c: Condition<V>)
    requires ' ' !in c.PrefixedName()
    ensures ' ' !in c.fieldName
  {
    var name, start := c.PrefixedName(), |c.PrefixedName()| - |c.fieldName|;
    assert name[start..] == c.fieldName;
    assert forall i :: 0 <= i < |c.fieldName| ==> c.fieldName[i] == name[start + i];
  }

  lemma ConditionSplits<V>(c: Condition<V>)
    requires Plain(c)
    ensures Split(PrintedCondition(c)) == ConditionWords(c)
  {
    SplitJoined(c.PrefixedName(), c.symbol);
    SplitWord(c.PrefixedName());
    if !c.IsNullTest() {
      FieldIsInName(c);
      SplitJoined(c.PrefixedName() + " " + c.symbol, ":" + c.fieldName);
      SplitWord(":" + c.fieldName);
    }
  }

  lemma {:induction false} SymbolEndIs(ws: seq<string>, i: nat, e: nat)
    requires i <= e < |ws| && EndsSymbol(ws[e]) && forall j :: i <= j < e ==> !EndsSymbol(ws[j])
    ensures SymbolEnd(ws, i) == e
    decreases e - i
  {
    if i < e {
      SymbolEndIs(ws, i + 1, e);
    }
  }

  /** Reading the words of a condition finds the condition, whatever follows. */
  lemma ReadCondition<V>(c: Condition<V>, rest: seq<string>)
    requires Plain(c)
    ensures ReadItem(ConditionWords(c) + rest) == Some((ItemOf(c), rest))
  {
    var ws, symbol := ConditionWords(c) + rest, Split(c.symbol);
    var e := if c.IsNullTest() then |symbol| else |symbol| + 1;
    assert forall j :: 1 <= j <= |symbol| ==> ws[j] == symbol[j - 1];
    SymbolEndIs(ws, 1, e);
    assert ws[e + 1..] == rest;
    if c.IsNullTest() {
      assert ws[1..e + 1] == symbol;
    } else {
      assert ws[1..e] == symbol;
      assert ws[e][0] == ':' && "NULL"[0] == 'N' && ws[e][1..] == c.fieldName;
    }
  }

  lemma OperatorSplits(op: Operator)
    ensures Split(OperatorText(op)) ==
            match op { case OP_AND => ["AND"] case OP_OR => ["OR"] case OP_AND_NOT => ["AND", "NOT"] case OP_OR_NOT => ["OR", "NOT"] }
  {
    SplitWord("AND");
    SplitWord("OR");
    SplitWord("NOT");
    SplitJoined("AND", "NOT");
    SplitJoined("OR", "NOT");
    assert "AND" + " " + "NOT" == "AND NOT" && "OR" + " " + "NOT" == "OR NOT";
  }

  lemma ReadOperator(op: Operator, rest: seq<string>)
    requires |rest| > 0 && (Bare(op) ==> rest[0] != "NOT")
    ensures var r := ParseOperator(Split(OperatorText(op)) + rest);
      r == Some((op, |Split(OperatorText(op))|))
  {
    OperatorSplits(op);
  }

  lemma SplitThree(a: string, b: string, c: string)
    ensures Split(a + " " + b + " " + c) == Split(a) + (Split(b) + Split(c))
  {
    SplitJoined(a + " " + b, c);
    SplitJoined(a, b);
  }

  lemma LinkSplits<V>(f: Filter<V>)
    requires f.Link? && Plain(f.condition)
    ensures Split(Printed(f)) == ConditionWords(f.condition) + (Split(OperatorText(f.op)) + Split(Printed(f.next)))
  {
    ConditionSplits(f.condition);
    SplitThree(PrintedCondition(f.condition), OperatorText(f.op), Printed(f.next));
  }

  lemma FirstWord<V>(f: Filter<V>)
    requires Plain(f.condition)
    ensures Split(Printed(f))[0] == f.condition.PrefixedName()
  {
    if f.Tail? {
      ConditionSplits(f.condition);
    } else {
      LinkSplits(f);
    }
  }

  lemma ParseTail<V>(c: Condition<V>)
    requires Plain(c)
    ensures Parse(ConditionWords(c)) == Some(End(ItemOf(c)))
  {
    ReadCondition(c, []);
    assert ConditionWords(c) + [] == ConditionWords(c);
  }

  lemma ParseLink<V>(c: Condition<V>, op: Operator, next: seq<string>)
    requires Plain(c) && |next| > 0 && (Bare(op) ==> next[0] != "NOT")
    ensures var r := Parse(next);
      Parse(ConditionWords(c) + (Split(OperatorText(op)) + next)) == if r.None? then None else Some(More(ItemOf(c), op, r.value))
  {
    var words := Split(OperatorText(op));
    ReadCondition(c, words + next);
    ReadOperator(op, next);
    assert (words + next)[|words|..] == next;
  }

  /** The printed text reads back as exactly the conditions, placeholders and operators of the chain. */
  lemma {:induction false} ParsesBack<V>(f: Filter<V>)
    requires Readable(f)
    ensures Parse(Split(Printed(f))) == Some(Skeleton(f))
  {
    if f.Tail? {
      ConditionSplits(f.condition);
      ParseTail(f.condition);
    } else {
      ParsesBack(f.next);
      FirstWord(f.next);
      LinkSplits(f);
      ParseLink(f.condition, f.op, Split(Printed(f.next)));
    }
  }

  function Placeholders(p: Parsed): seq<string> {
    var later := if p.End? then [] else Placeholders(p.next);
    if p.item.placeholder.None? then later else [p.item.placeholder.value] + later
  }

  lemma {:induction false} PlaceholdersAreComparisons<V>(f: Filter<V>)
    ensures var ps := Placeholders(Skeleton(f));
      |ps| == |Comparisons(f)| && forall i :: 0 <= i < |ps| ==> ps[i] == Comparisons(f)[i].fieldName
  {
    if f.Link? {
      PlaceholdersAreComparisons(f.next);
    }
  }

  // ---------------------------------------------------------------------------------------------
  // Exactly which chains read back
  // ---------------------------------------------------------------------------------------------

  /** What reading can yield: single words for names, symbols that end where they must, and no name NOT
      after a bare operator. */
  ghost predicate Shaped(p: Parsed) {
    && ' ' !in p.item.name
    && (|p.item.symbol| > 0 ==> PlainSymbol(p.item.symbol, p.item.placeholder.None?))
    && (p.More? ==> Shaped(p.next) && (Bare(p.op) ==> p.next.item.name != "NOT"))
  }

  ghost predicate Words(ws: seq<string>) {
    forall i :: 0 <= i < |ws| ==> ' ' !in ws[i]
  }

  lemma {:induction false} SplitWords(s: string)
    ensures Words(Split(s))
  {
    if |s| > 0 {
      SplitWords(s[1..]);
    }
  }

  lemma {:induction false} BeforeSymbolEnd(ws: seq<string>, i: nat)
    requires i <= |ws|
    ensures forall j :: i <= j < SymbolEnd(ws, i) ==> !EndsSymbol(ws[j])
    decreases |ws| - i
  {
    if i < |ws| && !EndsSymbol(ws[i]) {
      BeforeSymbolEnd(ws, i + 1);
    }
  }

  /** The item that reading starts with. */
  lemma ItemShaped(ws: seq<string>)
    requires Words(ws) && ReadItem(ws).Some?
    ensures var (item, rest) := ReadItem(ws).value;
      && ' ' !in item.name && item.name == ws[0] && Words(rest)
      && (|item.symbol| > 0 ==> PlainSymbol(item.symbol, item.placeholder.None?))
  {
    var e := SymbolEnd(ws, 1);
    BeforeSymbolEnd(ws, 1);
    var symbol := ReadItem(ws).value.0.symbol;
    assert forall i :: 0 <= i < |symbol| ==> symbol[i] == ws[i + 1];
  }

  lemma {:induction false} ParseShaped(ws: seq<string>)
    requires Words(ws) && Parse(ws).Some?
    ensures Shaped(Parse(ws).value) && Parse(ws).value.item.name == ws[0]
    decreases |ws|
  {
    ItemShaped(ws);
    var rest := ReadItem(ws).value.1;
    if rest != [] {
      var op := ParseOperator(rest).value;
      ParseShaped(rest[op.1..]);
    }
  }

  lemma {:induction false} ShapedIsReadable<V>(f: Filter<V>)
    ensures Shaped(Skeleton(f)) <==> Readable(f)
  {
    if f.Link? {
      ShapedIsReadable(f.next);
    }
  }

  /** The printed text of a chain reads back as the chain exactly if the chain is readable. */
  lemma ParsesBackExactlyWhen<V>(f: Filter<V>)
    ensures Parse(Split(Printed(f))) == Some(Skeleton(f)) <==> Readable(f)
  {
    if Readable(f) {
      ParsesBack(f);
    } else if Parse(Split(Printed(f))) == Some(Skeleton(f)) {
      SplitWords(Printed(f));
      ParseShaped(Split(Printed(f)));
      ShapedIsReadable(f);
    }
  }

  /** So readable chains with one text are one chain, but for the values bound. */
  lemma ReadableTextsDiffer<V>(f: Filter<V>, g: Filter<V>)
    requires Readable(f) && Readable(g) && Printed(f) == Printed(g)
    ensures Skeleton(f) == Skeleton(g)
  {
    ParsesBack(f);
    ParsesBack(g);
  }

  // ---------------------------------------------------------------------------------------------
  // Chains whose names and symbols are any text at all
  // ---------------------------------------------------------------------------------------------

  /** The pieces the printer emits, before they lose their boundaries in the text. */
  datatype Piece = Name(text: string) | Symbol(text: string) | Placeholder(text: string) | Connective(op: Operator) {
    function Render(): string {
      match this
      case Name(text) => text
      case Symbol(text) => text
      case Placeholder(text) => ":" + text
      case Connective(op) => OperatorText(op)
    }
  }

  function Joined(ps: seq<Piece>): string {
    if |ps| == 0 then ""
    else if |ps| == 1 then ps[0].Render()
    else ps[0].Render() + " " + Joined(ps[1..])
  }

  function ReadPieces(ps: seq<Piece>): Option<Parsed>
    decreases |ps|
  {
    if |ps| < 2 || !ps[0].Name? || !ps[1].Symbol? then None
    else
      var bound := |ps| > 2 && ps[2].Placeholder?;
      var item := Item(ps[0].text, Split(ps[1].text), if bound then Some(ps[2].text) else None);
      var rest := ps[if bound then 3 else 2..];
      if rest == [] then Some(End(item))
      else if !rest[0].Connective? then None
      else
        var next := ReadPieces(rest[1..]);
        if next.None? then None else Some(More(item, rest[0].op, next.value))
  }

  lemma {:induction false} JoinedConcat(a: seq<Piece>, b: seq<Piece>)
    requires |a| > 0 && |b| > 0
    ensures Joined(a + b) == Joined(a) + " " + Joined(b)
  {
    var first, tail := a[0], a[1..];
    assert (a + b)[1..] == tail + b;
    if |a| == 1 {
      assert tail + b == b;
    } else {
      JoinedConcat(tail, b);
      SpaceText(first.Render(), Joined(tail), Joined(b));
    }
  }

  function ConditionPieces<V>(c: Condition<V>): seq<Piece> {
    [Name(c.PrefixedName()), Symbol(c.symbol)] + if c.IsNullTest() then [] else [Placeholder(c.fieldName)]
  }

  lemma ConditionJoined<V>(c: Condition<V>)
    ensures Joined(ConditionPieces(c)) == PrintedCondition(c)
  {
    var ps := ConditionPieces(c);
    assert Joined(ps[1..]) == if c.IsNullTest() then c.symbol else c.symbol + " " + (":" + c.fieldName);
  }

  function Pieces<V>(f: Filter<V>): seq<Piece> {
    match f
    case Tail(c) => ConditionPieces(c)
    case Link(c, op, next) => ConditionPieces(c) + ([Connective(op)] + Pieces(next))
  }

  /** Any chain at all: its text is its pieces joined by single spaces. */
  lemma {:induction false} PiecesAreTheText<V>(f: Filter<V>)
    ensures |Pieces(f)| > 0 && Joined(Pieces(f)) == Printed(f)
  {
    ConditionJoined(f.condition);
    if f.Link? {
      PiecesAreTheText(f.next);
      JoinedConcat([Connective(f.op)], Pieces(f.next));
      JoinedConcat(ConditionPieces(f.condition), [Connective(f.op)] + Pieces(f.next));
      SpaceText(PrintedCondition(f.condition), OperatorText(f.op), Printed(f.next));
    }
  }

  lemma ReadOnePiece<V>(c: Condition<V>, tail: seq<Piece>)
    requires tail == [] || tail[0].Connective?
    ensures ReadPieces(ConditionPieces(c) + tail) ==
            if tail == [] then Some(End(ItemOf(c)))
            else var next := ReadPieces(tail[1..]);
              if next.None? then None else Some(More(ItemOf(c), tail[0].op, next.value))
  {
    var ps := ConditionPieces(c) + tail;
    assert ps[|ConditionPieces(c)|..] == tail;
  }

  /** Any chain at all: the pieces read back as the chain, and the placeholders among them are the fields of
      the comparisons, in binding order. */
  lemma {:induction false} PiecesReadBack<V>(f: Filter<V>)
    ensures ReadPieces(Pieces(f)) == Some(Skeleton(f))
    ensures var ps := Placeholders(Skeleton(f));
      |ps| == |Comparisons(f)| && forall i :: 0 <= i < |ps| ==> ps[i] == Comparisons(f)[i].fieldName
  {
    PlaceholdersAreComparisons(f);
    if f.Tail? {
      ReadOnePiece(f.condition, []);
      assert ConditionPieces(f.condition) + [] == Pieces(f);
    } else {
      PiecesReadBack(f.next);
      var tail := [Connective(f.op)] + Pieces(f.next);
      ReadOnePiece(f.condition, tail);
      assert tail[1..] == Pieces(f.next);
    }
  }

  /** The text alone does not always tell chains apart: a name that holds an operator prints like two conditions. */
  lemma NamesCanHideOperators<V>(v: V)
    ensures Printed(Tail(Condition("", "a IS NULL AND b", "IS NULL", v)))
            == Printed(Link(Condition("", "a", "IS NULL", v), OP_AND, Tail(Condition("", "b", "IS NULL", v))))
  {
    var test := "IS NULL";
    assert test[3..][..4] == "NULL";
    NullTestAt(test, 3);
    assert "a IS NULL AND b" == "a" + " " + test + " " + "AND" + " " + "b";
  }

  lemma {:induction false} NullTestAt(s: string, i: nat)
    requires i + 4 <= |s| && s[i..][..4] == "NULL"
    ensures Contains(s, "NULL")
  {
    if i > 0 {
      assert s[1..][i - 1..] == s[i..];
      NullTestAt(s[1..], i - 1);
    } else {
      assert s[0..] == s;
    }
  }

  // ---------------------------------------------------------------------------------------------
  // Condition by condition, in the plainest terms
  // ---------------------------------------------------------------------------------------------

  predicate NullAt(s: string, i: nat) {
    i + 4 <= |s| && s[i] == 'N' && s[i + 1] == 'U' && s[i + 2] == 'L' && s[i + 3] == 'L'
  }

  /** The word NULL stands somewhere in the text. */
  ghost predicate MentionsNull(s: string) {
    exists i: nat :: NullAt(s, i)
  }

  lemma {:induction false} NullTestsMentionNull(s: string)
    ensures Contains(s, "NULL") <==> MentionsNull(s)
  {
    assert |s| >= 4 && s[..4] == "NULL" <==> NullAt(s, 0);
    if |s| > 0 {
      var rest := s[1..];
      NullTestsMentionNull(rest);
      forall i: nat ensures NullAt(rest, i) <==> NullAt(s, i + 1) {
      }
      if i: nat :| NullAt(s, i) {
        assert i > 0 ==> NullAt(rest, i - 1);
      }
    }
  }

  function Length<V>(f: Filter<V>): nat {
    if f.Tail? then 1 else 1 + Length(f.next)
  }

  /** The condition at position `k` of the chain. */
  function ConditionAt<V>(f: Filter<V>, k: nat): Condition<V>
    requires k < Length(f)
  {
    if k == 0 then f.condition else ConditionAt(f.next, k - 1)
  }

  /** How many of the conditions before position `k` compare something. */
  ghost function Rank<V>(f: Filter<V>, k: nat): nat
    requires k <= Length(f)
  {
    if k == 0 then 0 else Rank(f, k - 1) + if MentionsNull(ConditionAt(f, k - 1).symbol) then 0 else 1
  }

  lemma {:induction false} RankFromNext<V>(f: Filter<V>, k: nat)
    requires f.Link? && k < Length(f)
    ensures Rank(f, k + 1) == (if MentionsNull(f.condition.symbol) then 0 else 1) + Rank(f.next, k)
  {
    if k > 0 {
      RankFromNext(f, k - 1);
    }
  }

  lemma {:induction false} NumberOfComparisons<V>(f: Filter<V>)
    ensures |Comparisons(f)| == Rank(f, Length(f)) == |Placeholders(Skeleton(f))|
  {
    NullTestsMentionNull(f.condition.symbol);
    if f.Link? {
      NumberOfComparisons(f.next);
      RankFromNext(f, Length(f.next));
    } else {
      assert Rank(f, 1) == Rank(f, 0) + if MentionsNull(f.condition.symbol) then 0 else 1;
    }
  }

  /** A condition that compares something stands among the comparisons, and its placeholder among the
      placeholders, after exactly those of the comparing conditions before it. */
  lemma {:induction false} ComparisonAt<V>(f: Filter<V>, k: nat)
    requires k < Length(f) && !MentionsNull(ConditionAt(f, k).symbol)
    ensures Rank(f, k) < |Comparisons(f)| && Comparisons(f)[Rank(f, k)] == ConditionAt(f, k)
    ensures Rank(f, k) < |Placeholders(Skeleton(f))| && Placeholders(Skeleton(f))[Rank(f, k)] == ConditionAt(f, k).fieldName
  {
    NullTestsMentionNull(f.condition.symbol);
    if k > 0 {
      ComparisonAt(f.next, k - 1);
      RankFromNext(f, k - 1);
    }
  }

  /** The values bound are those of exactly the conditions whose symbol does not mention NULL, each at the place
      that it has among them. */
  lemma BoundAt<V>(f: Filter<V>, k: nat)
    requires k < Length(f)
    ensures |BoundValues(f)| == Rank(f, Length(f))
    ensures !MentionsNull(ConditionAt(f, k).symbol) ==>
              Rank(f, k) < |BoundValues(f)| && BoundValues(f)[Rank(f, k)] == ConditionAt(f, k).value
  {
    NumberOfComparisons(f);
    if !MentionsNull(ConditionAt(f, k).symbol) {
      ComparisonAt(f, k);
    }
  }

  /** The text of a condition: the prefixed or bare name, the symbol, and a placeholder named after the field
      unless the symbol mentions NULL. */
  lemma TextOfCondition<V>(c: Condition<V>)
    ensures PrintedCondition(c) ==
            (if c.prefix != "" then c.prefix + "." + c.fieldName else c.fieldName) + " " + c.symbol
            + (if MentionsNull(c.symbol) then "" else " " + (":" + c.fieldName))
  {
    NullTestsMentionNull(c.symbol);
  }

  /** The text of a chain: its conditions with the operators between them. */
  lemma TextOfChain<V>(f: Filter<V>)
    ensures f.Tail? ==> Printed(f) == PrintedCondition(f.condition)
    ensures f.Link? && f.op.OP_AND? ==> Printed(f) == PrintedCondition(f.condition) + " AND " + Printed(f.next)
    ensures f.Link? && f.op.OP_OR? ==> Printed(f) == PrintedCondition(f.condition) + " OR " + Printed(f.next)
    ensures f.Link? && f.op.OP_AND_NOT? ==> Printed(f) == PrintedCondition(f.condition) + " AND NOT " + Printed(f.next)
    ensures f.Link? && f.op.OP_OR_NOT? ==> Printed(f) == PrintedCondition(f.condition) + " OR NOT " + Printed(f.next)
  {
    if f.Link? {
      Spaced(f.op);
      SpaceText(PrintedCondition(f.condition), OperatorText(f.op), Printed(f.next));
    }
  }

  lemma Spaced(op: Operator)
    ensures " " + OperatorText(op) + " " ==
            match op { case OP_AND => " AND " case OP_OR => " OR " case OP_AND_NOT => " AND NOT " case OP_OR_NOT => " OR NOT " }
  {
  }

  function Items(p: Parsed): seq<Item> {
    if p.End? then [p.item] else [p.item] + Items(p.next)
  }

  /** What is read at position `k` is the condition at position `k`. */
  lemma {:induction false} ItemAt<V>(f: Filter<V>, k: nat)
    requires k < Length(f)
    ensures |Items(Skeleton(f))| == Length(f)
    ensures var c, item := ConditionAt(f, k), Items(Skeleton(f))[k];
      && item.name == (if c.prefix != "" then c.prefix + "." + c.fieldName else c.fieldName)
      && item.symbol == Split(c.symbol)
      && item.placeholder == if MentionsNull(c.symbol) then None else Some(c.fieldName)
  {
    NullTestsMentionNull(f.condition.symbol);
    if f.Link? {
      ItemAt(f.next, if k > 0 then k - 1 else 0);
    }
  }

  /** One reading of a chain, position by position: a condition is read as an item with a placeholder exactly if
      its symbol does not mention NULL, and it is then the condition whose value is bound at the place that the
      placeholder has among all placeholders. */
  ghost predicate MatchedAt<V>(f: Filter<V>, p: Parsed, k: nat)
    requires k < Length(f)
  {
    var c, i := ConditionAt(f, k), Rank(f, k);
    && k < |Items(p)|
    && (Items(p)[k].placeholder.Some? <==> !MentionsNull(c.symbol))
    && (!MentionsNull(c.symbol) ==>
          && i < |Comparisons(f)| && Comparisons(f)[i] == c
          && i < |Placeholders(p)| && Items(p)[k].placeholder == Some(Placeholders(p)[i]) == Some(c.fieldName))
  }

  ghost predicate Matched<V>(f: Filter<V>, p: Parsed) {
    && |Items(p)| == Length(f)
    && |Placeholders(p)| == |Comparisons(f)| == Rank(f, Length(f))
    && forall k: nat :: k < Length(f) ==> MatchedAt(f, p, k)
  }

  lemma SkeletonMatches<V>(f: Filter<V>)
    ensures Matched(f, Skeleton(f))
  {
    NumberOfComparisons(f);
    ItemAt(f, 0);
    forall k: nat | k < Length(f) ensures MatchedAt(f, Skeleton(f), k) {
      ItemAt(f, k);
      if !MentionsNull(ConditionAt(f, k).symbol) {
        ComparisonAt(f, k);
      }
    }
  }

  /** The i-th placeholder in the text was printed by the very condition whose value `BindValue` binds i-th; these
      are, in order, the conditions whose symbol does not mention NULL. */
  lemma PlaceholdersMatchBindings<V>(f: Filter<V>)
    requires Readable(f)
    ensures var p := Parse(Split(Printed(f))); p.Some? && Matched(f, p.value)
  {
    ParsesBack(f);
    SkeletonMatches(f);
  }

  /** So it is for any chain at all, read piece by piece. */
  lemma PiecesMatchBindings<V>(f: Filter<V>)
    ensures var p := ReadPieces(Pieces(f)); p.Some? && Matched(f, p.value)
  {
    PiecesReadBack(f);
    SkeletonMatches(f);
  }
}
