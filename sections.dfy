/**
 * The section splitter of an MCNP input deck: card classification by label,
 * the comment-line predicate, the assignment of blank-line separated sections
 * to message, title, cells, surfaces, data and remainder, and the generators
 * that turn card matches into cards and drop comment cards.
 *
 * The regular expressions that split a deck into sections and a section into
 * (comment, card) matches are parameters: `ParseSections` receives the
 * sections and a `finditer` function yielding the matches of a section.
 */
module Sections {
  import opened Wrappers
  import opened Text

  datatype Kind = Comment | Cell | Surface | Material | Transformation | Sdef | Generic

  datatype Error = IndexError | ValueError

  /** A raw card: its text and its kind. */
  datatype Card = Card(text: string, kind: Kind)

  // ---------------------------------------------------------------------
  // Lines
  // ---------------------------------------------------------------------

  /** The position of the first `c` in `s`. */
  function IndexOf(s: string, c: char): (k: nat)
    requires c in s
    ensures k < |s| && s[k] == c && c !in s[..k]
  {
    if s[0] == c then 0
    else
      var k := IndexOf(s[1..], c);
      assert s[..k + 1] == [s[0]] + s[1..][..k];
      k + 1
  }

  /** `s.split('\n')`. */
  function SplitLines(s: string): (r: seq<string>)
    ensures |r| >= 1
    ensures forall i :: 0 <= i < |r| ==> '\n' !in r[i]
    decreases |s|
  {
    if '\n' !in s then [s]
    else
      var k := IndexOf(s, '\n');
      [s[..k]] + SplitLines(s[k + 1..])
  }

  /** `sep.join(parts)`. */
  function Join(parts: seq<string>, sep: string): string
  {
    if |parts| == 0 then ""
    else if |parts| == 1 then parts[0]
    else parts[0] + sep + Join(parts[1..], sep)
  }

  /** Joining the lines of `s` with newlines gives `s` back. */
  lemma {:induction false} SplitLinesJoin(s: string)
    ensures Join(SplitLines(s), "\n") == s
    decreases |s|
  {
    if '\n' in s {
      var k := IndexOf(s, '\n');
      var rest := SplitLines(s[k + 1..]);
      SplitLinesJoin(s[k + 1..]);
      assert SplitLines(s) == [s[..k]] + rest;
      assert s == s[..k] + "\n" + s[k + 1..];
    }
  }

  /**
   * `s.split('\n', 1)` unpacked into two names: the first line and the rest,
   * or None when `s` has no newline (the unpacking raises ValueError).
   */
  function SplitTitle(s: string): (r: Option<(string, string)>)
    ensures r.None? <==> '\n' !in s
    ensures r.Some? ==> '\n' !in r.value.0 && s == r.value.0 + "\n" + r.value.1
  {
    if '\n' !in s then None
    else
      var k := IndexOf(s, '\n');
      assert s == s[..k] + "\n" + s[k + 1..];
      Some((s[..k], s[k + 1..]))
  }

  // ---------------------------------------------------------------------
  // Comments
  // ---------------------------------------------------------------------

  /**
   * A single line is a comment when at most five whitespace characters are
   * followed by `c` or `C`, and then either only whitespace or a space and
   * anything.
   */
  predicate IsCommentLine(line: string)
    requires '\n' !in line
  {
    var w := LeadingSpace(line);
    w <= 5 && w < |line| && (line[w] == 'c' || line[w] == 'C')
    && (AllSpace(line[w + 1..]) || (w + 1 < |line| && line[w + 1] == ' '))
  }

  /** The position of the first line that is not a comment line, or the number of lines. */
  function FirstNonComment(lines: seq<string>): (k: nat)
    requires forall i :: 0 <= i < |lines| ==> '\n' !in lines[i]
    ensures k <= |lines|
    ensures forall j :: 0 <= j < k ==> IsCommentLine(lines[j])
    ensures k < |lines| ==> !IsCommentLine(lines[k])
  {
    if lines == [] || !IsCommentLine(lines[0]) then 0
    else
      var k := FirstNonComment(lines[1..]);
      assert forall j :: 0 < j < k + 1 ==> lines[j] == lines[1..][j - 1];
      k + 1
  }

  /**
   * A text is a comment. A single line is checked directly. A text with
   * newlines is a comment when the first of its lines that is not a comment
   * line is empty, or when there is no such line.
   */
  predicate IsCommentText(text: string)
  {
    if '\n' in text then
      var lines := SplitLines(text);
      var k := FirstNonComment(lines);
      k == |lines| || lines[k] == ""
    else IsCommentLine(text)
  }

  /** Without empty lines, a text with newlines is a comment iff every line is. */
  lemma CommentTextEveryLine(text: string)
    requires '\n' in text
    requires forall i :: 0 <= i < |SplitLines(text)| ==> SplitLines(text)[i] != ""
    ensures IsCommentText(text) <==> forall i :: 0 <= i < |SplitLines(text)| ==> IsCommentLine(SplitLines(text)[i])
  {
  }

  /**
   * An empty line stops the scan: a comment line, a blank line and then any
   * text at all make a comment text.
   */
  lemma BlankLineEndsCommentScan(a: string, b: string)
    requires '\n' !in a && IsCommentLine(a)
    ensures IsCommentText(a + "\n\n" + b)
  {
    var text := a + "\n\n" + b;
    assert text == a + "\n" + ("" + "\n" + b);
    SplitLinesCons("", b);
    SplitLinesCons(a, "" + "\n" + b);
    var lines := SplitLines(text);
    assert lines[0] == a && lines[1] == "";
    assert lines[1..][0] == "";
  }

  /** The first line of a text with a newline is split off first. */
  lemma SplitLinesCons(a: string, b: string)
    requires '\n' !in a
    ensures SplitLines(a + "\n" + b) == [a] + SplitLines(b)
  {
    var s := a + "\n" + b;
    assert s[|a|] == '\n' && s[..|a|] == a;
    assert IndexOf(s, '\n') == |a|;
    assert s[|a| + 1..] == b;
  }

  // ---------------------------------------------------------------------
  // Card kinds
  // ---------------------------------------------------------------------

  predicate IsM(c: char) { c == 'm' || c == 'M' }
  predicate IsT(c: char) { c == 't' || c == 'T' }
  predicate IsR(c: char) { c == 'r' || c == 'R' }

  /** The label with an optional leading `*` removed. */
  function Unstarred(text: string): string
  {
    if |text| > 0 && text[0] == '*' then text[1..] else text
  }

  /** `m` or `M` followed by a digit. */
  predicate MaterialLabel(text: string)
  {
    |text| >= 2 && IsM(text[0]) && IsDigit(text[1])
  }

  /** An optional `*`, then `tr` in any case, then a digit. */
  predicate TransformationLabel(text: string)
  {
    var t := Unstarred(text);
    |t| >= 3 && IsT(t[0]) && IsR(t[1]) && IsDigit(t[2])
  }

  /** A text that ends inside a material or transformation label, before its digit. */
  predicate TruncatedLabel(text: string)
  {
    var t := Unstarred(text);
    text == "m" || text == "M" || text == "*"
    || (|t| == 1 && IsT(t[0]))
    || (|t| == 2 && IsT(t[0]) && IsR(t[1]))
  }

  /** The first word, lower-cased, is `sdef`. */
  predicate SdefLabel(text: string)
  {
    var w := FirstWord(text);
    w.Some? && Lower(w.value) == "sdef"
  }

  /** The label checks after the transformation test. */
  function KindByWord(text: string): (r: Result<Kind, Error>)
    ensures r.Ok? ==> r.value == Sdef || r.value == Comment || r.value == Generic
  {
    match FirstWord(text)
    case None => Err(IndexError)
    case Some(word) =>
      if Lower(word) == "sdef" then Ok(Sdef)
      else if IsCommentText(text) then Ok(Comment)
      else Ok(Generic)
  }

  /**
   * The kind the first characters decide on their own: a material or a
   * transformation label, or IndexError for a text that ends inside one;
   * None when the first word decides.
   */
  function KindByPrefix(text: string): Option<Result<Kind, Error>>
  {
    if |text| == 0 then Some(Err(IndexError))
    else if IsM(text[0]) && |text| < 2 then Some(Err(IndexError))
    else if IsM(text[0]) && IsDigit(text[1]) then Some(Ok(Material))
    else
      var i := if text[0] == '*' then 1 else 0;
      if i >= |text| then Some(Err(IndexError))
      else if !IsT(text[i]) then None
      else if i + 1 >= |text| then Some(Err(IndexError))
      else if !IsR(text[i + 1]) then None
      else if i + 2 >= |text| then Some(Err(IndexError))
      else if IsDigit(text[i + 2]) then Some(Ok(Transformation))
      else None
  }

  /** What the first characters decide, in terms of the label forms. */
  lemma KindByPrefixCases(text: string)
    ensures KindByPrefix(text) == Some(Ok(Material)) <==> MaterialLabel(text)
    ensures KindByPrefix(text) == Some(Ok(Transformation)) <==> TransformationLabel(text)
    ensures KindByPrefix(text) == Some(Err(IndexError)) <==> |text| == 0 || TruncatedLabel(text)
    ensures KindByPrefix(text).Some? ==>
              KindByPrefix(text) in {Some(Ok(Material)), Some(Ok(Transformation)), Some(Err(IndexError))}
  {
    if |text| > 0 && text[0] == '*' {
      assert Unstarred(text) == text[1..];
    }
  }

  /**
   * `Kind.from_card_text`: material first, then transformation, then `sdef`,
   * then comment, otherwise generic. Reading past the end of the text while
   * testing a label, or a text with no word, raises IndexError.
   */
  function FromCardText(text: string): (r: Result<Kind, Error>)
    ensures r.Err? ==> r.error == IndexError
    ensures r == Ok(Comment) ==> IsCommentText(text)
    ensures r == Ok(Generic) ==> !IsCommentText(text) && !SdefLabel(text)
    ensures r.Ok? ==> r.value != Cell && r.value != Surface
  {
    KindByPrefixCases(text);
    match KindByPrefix(text)
    case Some(r) => r
    case None => KindByWord(text)
  }

  /** Classification raises exactly on a blank text or a label cut short before its digit. */
  lemma CardTextErrors(text: string)
    ensures FromCardText(text).Err? <==> AllSpace(text) || TruncatedLabel(text)
  {
    KindByPrefixCases(text);
    if |text| > 0 && !IsSpace(text[0]) {
      assert !AllSpace(text);
    }
    if |text| > 0 && AllSpace(text) {
      assert IsSpace(text[0]);
      assert KindByPrefix(text).None?;
    }
  }

  /** `m` or `M` and a digit make a MATERIAL card, whatever follows. */
  lemma MaterialKind(text: string)
    ensures FromCardText(text) == Ok(Material) <==> MaterialLabel(text)
  {
    KindByPrefixCases(text);
  }

  /** An optional `*`, `tr` in any case and a digit make a TRANSFORMATION card. */
  lemma TransformationKind(text: string)
    ensures FromCardText(text) == Ok(Transformation) <==> TransformationLabel(text)
  {
    KindByPrefixCases(text);
  }

  /** A label whose first word is `sdef` in any case is an SDEF card. */
  lemma SdefKind(text: string)
    ensures FromCardText(text) == Ok(Sdef) <==> SdefLabel(text)
  {
    var w := FirstWord(text);
    if SdefLabel(text) {
      var start := LeadingSpace(text);
      assert w.value[0] == text[start];
      assert LowerChar(w.value[0]) == 's';
      if start == 0 {
        assert text[0] == 's' || text[0] == 'S';
      } else {
        assert IsSpace(text[0]);
      }
      assert KindByPrefix(text).None?;
    }
  }

  /** A one-line comment is a COMMENT card. */
  lemma CommentLineKind(text: string)
    requires '\n' !in text && IsCommentLine(text)
    ensures FromCardText(text) == Ok(Comment)
  {
    var w := LeadingSpace(text);
    if w == 0 {
      assert text[0] == 'c' || text[0] == 'C';
    } else {
      assert IsSpace(text[0]);
    }
    assert KindByPrefix(text).None?;
    var rest := text[w..];
    assert rest[0] == text[w];
    assert WordLength(rest) == 1 by {
      if |rest| > 1 {
        assert rest[1] == text[w + 1];
        assert text[w + 1..][0] == text[w + 1];
        assert IsSpace(rest[1]);
      }
    }
    assert FirstWord(text) == Some(rest[..1]);
    assert Lower(rest[..1]) != "sdef";
  }

  /**
   * A card built without a kind gets the kind of its label; an explicit kind
   * is kept. Classifying the label can raise.
   */
  function NewCard(text: string, kind: Option<Kind>): (r: Result<Card, Error>)
    ensures r.Ok? ==> r.value.text == text
    ensures kind.Some? ==> r == Ok(Card(text, kind.value))
    ensures kind.None? ==> (r.Ok? <==> FromCardText(text).Ok?)
    ensures kind.None? && r.Ok? ==> r.value.kind == FromCardText(text).value
  {
    if kind.Some? then Ok(Card(text, kind.value))
    else
      match FromCardText(text)
      case Err(e) => Err(e)
      case Ok(k) => Ok(Card(text, k))
  }

  // ---------------------------------------------------------------------
  // Input sections
  // ---------------------------------------------------------------------

  datatype InputSections = InputSections(
    title: Option<string>,
    cellCards: Option<seq<Card>>,
    surfaceCards: Option<seq<Card>>,
    dataCards: Option<seq<Card>>,
    message: Option<string>,
    remainder: Option<string>,
    isContinue: bool)

  /** A card list that is set and not empty. */
  predicate Present(cards: Option<seq<Card>>)
  {
    cards.Some? && cards.value != []
  }

  /**
   * `InputSections` with its validator: in continue mode cell and surface
   * cards are rejected and at least one data card is required.
   */
  function NewInputSections(title: Option<string>, cells: Option<seq<Card>>, surfaces: Option<seq<Card>>,
                            data: Option<seq<Card>>, message: Option<string>, remainder: Option<string>,
                            isContinue: bool): (r: Result<InputSections, Error>)
    ensures r.Err? <==> isContinue && (Present(cells) || Present(surfaces) || !Present(data))
    ensures r.Err? ==> r.error == ValueError
    ensures r.Ok? ==> r.value == InputSections(title, cells, surfaces, data, message, remainder, isContinue)
    ensures r.Ok? && isContinue ==> !Present(r.value.cellCards) && !Present(r.value.surfaceCards)
                                     && Present(r.value.dataCards)
  {
    if isContinue && (Present(cells) || Present(surfaces)) then Err(ValueError)
    else if isContinue && !Present(data) then Err(ValueError)
    else Ok(InputSections(title, cells, surfaces, data, message, remainder, isContinue))
  }

  /** `title[:8].lower() == 'continue'`. */
  predicate IsContinueTitle(title: string)
  {
    Lower(Prefix(title, 8)) == "continue"
  }

  /** A title is a continue title iff its first eight characters spell `continue` in any case. */
  lemma ContinueTitleCase(title: string)
    ensures IsContinueTitle(title) <==>
              |title| >= 8 && forall i :: 0 <= i < 8 ==> LowerChar(title[i]) == "continue"[i]
    ensures IsContinueTitle(Upper(title)) == IsContinueTitle(title)
  {
    var p := Prefix(title, 8);
    var q := Prefix(Upper(title), 8);
    assert forall c :: LowerChar(UpperChar(c)) == LowerChar(c);
    assert Lower(q) == Lower(p) by {
      assert |q| == |p|;
      forall i | 0 <= i < |p|
        ensures Lower(q)[i] == Lower(p)[i]
      {
        assert q[i] == Upper(title)[i] == UpperChar(title[i]);
      }
    }
  }

  /** `s[:8].lower() == 'message:'`. */
  predicate IsMessage(s: string)
  {
    Lower(Prefix(s, 8)) == "message:"
  }

  /** The index of the title section: after the message block when there is one. */
  function TitleIndex(sections: seq<string>): (t: nat)
    requires |sections| >= 1
    ensures t <= 1
    ensures t == 1 <==> IsMessage(sections[0])
  {
    if IsMessage(sections[0]) then 1 else 0
  }

  /** The sections from `i` on, joined by blank lines, or None when there are none. */
  function Remainder(sections: seq<string>, i: nat): (r: Option<string>)
    ensures r.None? <==> i >= |sections|
  {
    if i < |sections| then Some(Join(sections[i..], "\n\n")) else None
  }

  // ---------------------------------------------------------------------
  // Cards of a section
  // ---------------------------------------------------------------------

  /** One match of the card pattern: the comment group and the card group ("" when absent). */
  datatype CardMatch = CardMatch(comment: string, card: string)

  /**
   * The cards one match yields: the comment, if any, as a COMMENT card, then
   * the card, with the explicit kind or the kind of its label.
   */
  function MatchCards(m: CardMatch, kind: Option<Kind>): (r: Result<seq<Card>, Error>)
    ensures r.Err? <==> m.card != "" && kind.None? && FromCardText(Rstrip(m.card)).Err?
    ensures r.Ok? ==> |r.value| == (if m.comment != "" then 1 else 0) + (if m.card != "" then 1 else 0)
    ensures r.Ok? && m.comment != "" ==> r.value[0] == Card(Rstrip(m.comment), Comment)
    ensures r.Ok? && m.card != "" ==> r.value[|r.value| - 1].text == Rstrip(m.card)
    ensures r.Ok? && m.card != "" && kind.Some? ==> r.value[|r.value| - 1].kind == kind.value
  {
    var comments := if m.comment != "" then [Card(Rstrip(m.comment), Comment)] else [];
    if m.card == "" then Ok(comments)
    else
      match NewCard(Rstrip(m.card), kind)
      case Err(e) => Err(e)
      case Ok(c) => Ok(comments + [c])
  }

  /** The cards of all matches in order; the first failing classification raises. */
  function CardsOf(ms: seq<CardMatch>, kind: Option<Kind>): Result<seq<Card>, Error>
  {
    if ms == [] then Ok([])
    else
      match CardsOf(ms[..|ms| - 1], kind)
      case Err(e) => Err(e)
      case Ok(cards) =>
        match MatchCards(ms[|ms| - 1], kind)
        case Err(e) => Err(e)
        case Ok(more) => Ok(cards + more)
  }

  /**
   * With an explicit kind nothing is classified, so nothing raises, and every
   * card is a comment or of that kind.
   */
  lemma {:induction false} ExplicitKindCards(ms: seq<CardMatch>, kind: Kind)
    ensures CardsOf(ms, Some(kind)).Ok?
    ensures forall c :: c in CardsOf(ms, Some(kind)).value ==> c.kind == Comment || c.kind == kind
  {
    if ms != [] {
      ExplicitKindCards(ms[..|ms| - 1], kind);
      var m := ms[|ms| - 1];
      var more := MatchCards(m, Some(kind)).value;
      assert forall c :: c in more ==> c.kind == Comment || c.kind == kind;
    }
  }

  /** The number of cards is the number of non-empty groups. */
  function GroupCount(ms: seq<CardMatch>): nat
  {
    if ms == [] then 0
    else
      var m := ms[|ms| - 1];
      GroupCount(ms[..|ms| - 1]) + (if m.comment != "" then 1 else 0) + (if m.card != "" then 1 else 0)
  }

  lemma {:induction false} CardsOfCount(ms: seq<CardMatch>, kind: Option<Kind>)
    requires CardsOf(ms, kind).Ok?
    ensures |CardsOf(ms, kind).value| == GroupCount(ms)
  {
    if ms != [] {
      CardsOfCount(ms[..|ms| - 1], kind);
    }
  }

  /** `split_to_cards`: the cards of a section's matches, in match order. */
  method SplitToCards(ms: seq<CardMatch>, kind: Option<Kind>) returns (r: Result<seq<Card>, Error>)
    ensures r == CardsOf(ms, kind)
  {
    var cards: seq<Card> := [];
    var i := 0;
    while i < |ms|
      invariant 0 <= i <= |ms|
      invariant CardsOf(ms[..i], kind) == Ok(cards)
    {
      CardsOfStep(ms, kind, i, cards);
      var more := YieldMatch(ms[i], kind);
      if more.Err? {
        return Err(more.error);
      }
      cards := cards + more.value;
      i := i + 1;
    }
    assert ms[..|ms|] == ms;
    return Ok(cards);
  }

  /** The body of the generator for one match: the comment card, then the card. */
  method YieldMatch(m: CardMatch, kind: Option<Kind>) returns (r: Result<seq<Card>, Error>)
    ensures r == MatchCards(m, kind)
  {
    var cards: seq<Card> := [];
    if m.comment != "" {
      cards := [Card(Rstrip(m.comment), Comment)];
    }
    if m.card != "" {
      var c := NewCard(Rstrip(m.card), kind);
      if c.Err? {
        return Err(c.error);
      }
      cards := cards + [c.value];
    }
    return Ok(cards);
  }

  /** One more match: its cards are appended, or its failure is the failure of the whole. */
  lemma CardsOfStep(ms: seq<CardMatch>, kind: Option<Kind>, i: nat, cards: seq<Card>)
    requires i < |ms| && CardsOf(ms[..i], kind) == Ok(cards)
    ensures MatchCards(ms[i], kind).Ok? ==> CardsOf(ms[..i + 1], kind) == Ok(cards + MatchCards(ms[i], kind).value)
    ensures MatchCards(ms[i], kind).Err? ==> CardsOf(ms, kind) == Err(MatchCards(ms[i], kind).error)
  {
    assert ms[..i + 1][..i] == ms[..i];
    if MatchCards(ms[i], kind).Err? {
      CardsOfErrorStays(ms, kind, i + 1);
    }
  }

  /** Once a prefix of the matches raises, every longer prefix raises the same way. */
  lemma {:induction false} CardsOfErrorStays(ms: seq<CardMatch>, kind: Option<Kind>, n: nat)
    requires n <= |ms| && CardsOf(ms[..n], kind).Err?
    ensures CardsOf(ms, kind) == CardsOf(ms[..n], kind)
    decreases |ms| - n
  {
    if n < |ms| {
      assert ms[..n + 1][..n] == ms[..n];
      CardsOfErrorStays(ms, kind, n + 1);
    } else {
      assert ms[..n] == ms;
    }
  }

  /** The cards that are not comments, in order. */
  function NonComment(cards: seq<Card>): (r: seq<Card>)
    ensures forall c :: c in r ==> c in cards && c.kind != Comment
    ensures forall c :: c in cards && c.kind != Comment ==> c in r
  {
    if cards == [] then []
    else
      var last := cards[|cards| - 1];
      var r := NonComment(cards[..|cards| - 1]);
      assert forall c :: c in cards ==> c in cards[..|cards| - 1] || c == last;
      if last.kind != Comment then r + [last] else r
  }

  /** Each card with its text cleaned and its kind kept. */
  function Cleaned(cards: seq<Card>, clean: string -> string): (r: seq<Card>)
    ensures |r| == |cards|
    ensures forall i :: 0 <= i < |cards| ==> r[i] == Card(clean(cards[i].text), cards[i].kind)
  {
    seq(|cards|, i requires 0 <= i < |cards| => Card(clean(cards[i].text), cards[i].kind))
  }

  /** One more card that is not a comment is cleaned and appended; a comment adds nothing. */
  lemma CleanedStep(cards: seq<Card>, i: nat, clean: string -> string)
    requires i < |cards|
    ensures cards[i].kind != Comment ==>
              Cleaned(NonComment(cards[..i + 1]), clean)
              == Cleaned(NonComment(cards[..i]), clean) + [Card(clean(cards[i].text), cards[i].kind)]
    ensures cards[i].kind == Comment ==>
              Cleaned(NonComment(cards[..i + 1]), clean) == Cleaned(NonComment(cards[..i]), clean)
  {
    assert cards[..i + 1][..i] == cards[..i];
  }

  /**
   * `clean_mcnp_cards`: every card that is not a comment, with its text
   * cleaned and its kind kept; comment cards are dropped.
   */
  method CleanCards(cards: seq<Card>, clean: string -> string) returns (r: seq<Card>)
    ensures r == Cleaned(NonComment(cards), clean)
    ensures forall c :: c in r ==> c.kind != Comment
  {
    r := [];
    var i := 0;
    while i < |cards|
      invariant 0 <= i <= |cards|
      invariant r == Cleaned(NonComment(cards[..i]), clean)
    {
      CleanedStep(cards, i, clean);
      var x := cards[i];
      if x.kind != Comment {
        r := r + [Card(clean(x.text), x.kind)];
      }
      i := i + 1;
    }
    assert cards[..|cards|] == cards;
    forall c | c in r
      ensures c.kind != Comment
    {
      var j :| 0 <= j < |r| && r[j] == c;
      assert NonComment(cards)[j] in NonComment(cards);
    }
  }

  // ---------------------------------------------------------------------
  // parse_sections
  // ---------------------------------------------------------------------

  /**
   * A continue run: the cards of the title section are the data cards, there
   * is at least one, there are no cell or surface cards, and the later
   * sections are the remainder.
   */
  predicate ContinueLayout(s: InputSections, sections: seq<string>, t: nat, rest: string,
                           finditer: string -> seq<CardMatch>)
  {
    s.cellCards.None? && s.surfaceCards.None? && s.dataCards.Some? &&
    CardsOf(finditer(rest), None) == Ok(s.dataCards.value) && s.dataCards.value != [] &&
    s.remainder == Remainder(sections, t + 1)
  }

  /**
   * A regular run: the cards of the title section are cells, the next section
   * holds surfaces, the one after it data cards, and any later sections are
   * the remainder; a section that is missing leaves its cards None.
   */
  predicate RegularLayout(s: InputSections, sections: seq<string>, t: nat, rest: string,
                          finditer: string -> seq<CardMatch>)
  {
    s.cellCards.Some? && CardsOf(finditer(rest), Some(Cell)) == Ok(s.cellCards.value) &&
    (s.surfaceCards.Some? <==> t + 1 < |sections|) &&
    (t + 1 < |sections| ==> CardsOf(finditer(sections[t + 1]), Some(Surface)) == Ok(s.surfaceCards.value)) &&
    (s.dataCards.Some? <==> t + 2 < |sections|) &&
    (t + 2 < |sections| ==> CardsOf(finditer(sections[t + 2]), None) == Ok(s.dataCards.value)) &&
    s.remainder == Remainder(sections, t + 3)
  }

  /**
   * `parse_sections` over the blank-line separated sections of a deck: an
   * optional message block, the title line, then either the data cards of a
   * continue run or the cell, surface and data sections, and the rest joined
   * back as the remainder.
   */
  method ParseSections(sections: seq<string>, finditer: string -> seq<CardMatch>)
    returns (r: Result<InputSections, Error>)
    requires |sections| >= 1
    ensures var t := TitleIndex(sections);
            t == |sections| ==> r == Err(IndexError)
    ensures var t := TitleIndex(sections);
            t < |sections| && SplitTitle(sections[t]).None? ==> r == Err(ValueError)
    ensures var t := TitleIndex(sections);
            t < |sections| && SplitTitle(sections[t]).Some? && SplitTitle(sections[t]).value.0 == "" ==>
              r == Err(ValueError)
    ensures r.Ok? ==>
              var t := TitleIndex(sections);
              t < |sections| && SplitTitle(sections[t]).Some? &&
              var (title, rest) := SplitTitle(sections[t]).value;
              title != "" &&
              r.value.title == Some(title) &&
              r.value.message == (if t == 1 then Some(sections[0]) else None) &&
              r.value.isContinue == IsContinueTitle(title) &&
              (r.value.isContinue ==> ContinueLayout(r.value, sections, t, rest, finditer)) &&
              (!r.value.isContinue ==> RegularLayout(r.value, sections, t, rest, finditer))
    ensures r.Err? ==>
              var t := TitleIndex(sections);
              t == |sections| || SplitTitle(sections[t]).None? ||
              var (title, rest) := SplitTitle(sections[t]).value;
              title == "" ||
              (IsContinueTitle(title) &&
                 (CardsOf(finditer(rest), None).Err? || CardsOf(finditer(rest), None) == Ok([]))) ||
              (!IsContinueTitle(title) && t + 2 < |sections| && CardsOf(finditer(sections[t + 2]), None).Err?)
  {
    var message: Option<string> := None;
    var i := 0;
    if IsMessage(sections[0]) {
      message := Some(sections[0]);
      i := i + 1;
    }
    if i >= |sections| {
      return Err(IndexError);
    }
    var split := SplitTitle(sections[i]);
    if split.None? {
      return Err(ValueError);
    }
    var title, cur := split.value.0, split.value.1;
    i := i + 1;
    if title == "" {
      return Err(ValueError);
    }
    if IsContinueTitle(title) {
      r := ContinueRun(sections, i, title, cur, message, finditer);
    } else {
      r := RegularRun(sections, i, title, cur, message, finditer);
    }
  }

  /** The continue branch of `parse_sections`, with the cursor `i` past the title section. */
  method ContinueRun(sections: seq<string>, i: nat, title: string, cur: string, message: Option<string>,
                     finditer: string -> seq<CardMatch>) returns (r: Result<InputSections, Error>)
    requires 1 <= i
    ensures r.Ok? ==> r.value.title == Some(title) && r.value.message == message && r.value.isContinue
                      && ContinueLayout(r.value, sections, i - 1, cur, finditer)
    ensures r.Err? ==> CardsOf(finditer(cur), None).Err? || CardsOf(finditer(cur), None) == Ok([])
  {
    var data := SplitToCards(finditer(cur), None);
    if data.Err? {
      return Err(data.error);
    }
    var remainder := Remainder(sections, i);
    r := NewInputSections(Some(title), None, None, Some(data.value), message, remainder, true);
  }

  /** The regular branch of `parse_sections`, with the cursor `i` past the title section. */
  method RegularRun(sections: seq<string>, i: nat, title: string, cur: string, message: Option<string>,
                    finditer: string -> seq<CardMatch>) returns (r: Result<InputSections, Error>)
    requires 1 <= i
    ensures r.Ok? ==> r.value.title == Some(title) && r.value.message == message && !r.value.isContinue
                      && RegularLayout(r.value, sections, i - 1, cur, finditer)
    ensures r.Err? ==> i + 1 < |sections| && CardsOf(finditer(sections[i + 1]), None).Err?
  {
    ExplicitKindCards(finditer(cur), Cell);
    var cells := SplitToCards(finditer(cur), Some(Cell));
    var surfaces: Option<seq<Card>> := None;
    var data: Option<seq<Card>> := None;
    var remainder: Option<string> := None;
    var j := i;
    if j < |sections| {
      ExplicitKindCards(finditer(sections[j]), Surface);
      var s := SplitToCards(finditer(sections[j]), Some(Surface));
      surfaces := Some(s.value);
      j := j + 1;
      if j < |sections| {
        var d := SplitToCards(finditer(sections[j]), None);
        if d.Err? {
          return Err(d.error);
        }
        data := Some(d.value);
        j := j + 1;
        remainder := Remainder(sections, j);
      }
    }
    r := NewInputSections(Some(title), Some(cells.value), surfaces, data, message, remainder, false);
  }
}
