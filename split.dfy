/**
 * `distribute_cards` of the `split` command: the data cards of a deck are
 * routed to materials, transformations, sdef and other cards, each card
 * preceded by the comment card that came right before it.
 */
module SplitCommand {
  import opened Wrappers
  import opened Sections

  /** The four output lists. */
  datatype Bucket = Materials | Transformations | SdefCards | Others

  /** The list a card that is not a comment goes to, by first match in this order. */
  function BucketOf(c: Card): Bucket
  {
    if c.kind == Material then Materials
    else if c.kind == Transformation then Transformations
    else if c.kind == Sdef then SdefCards
    else Others
  }

  /** The comment waiting after `cards[..n]`: the last card, when it is a comment. */
  function Pending(cards: seq<Card>, n: nat): (p: Option<Card>)
    requires n <= |cards|
    ensures p.Some? ==> p.value.kind == Comment
  {
    if n > 0 && cards[n - 1].kind == Comment then Some(cards[n - 1]) else None
  }

  /**
   * The reference for one output list: every card of `cards[..n]` that is not
   * a comment and belongs to `b`, in input order, each preceded by the
   * comment immediately before it, if there is one.
   */
  function Routed(cards: seq<Card>, n: nat, b: Bucket): seq<Card>
    requires n <= |cards|
  {
    if n == 0 then []
    else
      var c := cards[n - 1];
      Routed(cards, n - 1, b) +
      (if c.kind != Comment && BucketOf(c) == b then
         (if Pending(cards, n - 1).Some? then [Pending(cards, n - 1).value] else []) + [c]
       else [])
  }

  /**
   * `distribute_cards`: the loop keeps the last comment seen since the last
   * other card and attaches it in front of the next card, in that card's
   * list.
   */
  method DistributeCards(cards: seq<Card>)
    returns (materials: seq<Card>, transformations: seq<Card>, sdef: seq<Card>, others: seq<Card>)
    ensures materials == Routed(cards, |cards|, Materials)
    ensures transformations == Routed(cards, |cards|, Transformations)
    ensures sdef == Routed(cards, |cards|, SdefCards)
    ensures others == Routed(cards, |cards|, Others)
  {
    var comment: Option<Card> := None;
    materials, transformations, sdef, others := [], [], [], [];
    var i := 0;
    while i < |cards|
      invariant 0 <= i <= |cards|
      invariant comment == Pending(cards, i)
      invariant materials == Routed(cards, i, Materials)
      invariant transformations == Routed(cards, i, Transformations)
      invariant sdef == Routed(cards, i, SdefCards)
      invariant others == Routed(cards, i, Others)
    {
      var c := cards[i];
      if c.kind == Comment {
        comment := Some(c);
      } else if c.kind == Material {
        if comment.Some? {
          materials := materials + [comment.value];
          comment := None;
        }
        materials := materials + [c];
      } else if c.kind == Transformation {
        if comment.Some? {
          transformations := transformations + [comment.value];
          comment := None;
        }
        transformations := transformations + [c];
      } else if c.kind == Sdef {
        if comment.Some? {
          sdef := sdef + [comment.value];
          comment := None;
        }
        sdef := sdef + [c];
      } else {
        if comment.Some? {
          others := others + [comment.value];
          comment := None;
        }
        others := others + [c];
      }
      i := i + 1;
    }
  }

  // ---------------------------------------------------------------------
  // Properties of the routing
  // ---------------------------------------------------------------------

  /** The cards of `cards[..n]` that are not comments and belong to `b`, in order. */
  function Selected(cards: seq<Card>, n: nat, b: Bucket): seq<Card>
    requires n <= |cards|
  {
    if n == 0 then []
    else
      var c := cards[n - 1];
      Selected(cards, n - 1, b) + (if c.kind != Comment && BucketOf(c) == b then [c] else [])
  }

  /** The cards of a list that are not comments. */
  function Uncommented(cards: seq<Card>): seq<Card>
  {
    if cards == [] then []
    else Uncommented(cards[..|cards| - 1]) + (if cards[|cards| - 1].kind != Comment then [cards[|cards| - 1]] else [])
  }

  lemma {:induction false} UncommentedAppend(a: seq<Card>, b: seq<Card>)
    ensures Uncommented(a + b) == Uncommented(a) + Uncommented(b)
    decreases |b|
  {
    if b == [] {
      assert a + b == a;
    } else {
      var b' := b[..|b| - 1];
      UncommentedAppend(a, b');
      assert (a + b)[..|a + b| - 1] == a + b';
      assert b[..|b| - 1] == b';
    }
  }

  /**
   * Without its comments, each list is exactly the cards of its kind in input
   * order: every other card lands in one list, by first-match priority, and
   * keeps its order.
   */
  lemma {:induction false} RoutedKeepsCards(cards: seq<Card>, n: nat, b: Bucket)
    requires n <= |cards|
    ensures Uncommented(Routed(cards, n, b)) == Selected(cards, n, b)
  {
    if n > 0 {
      RoutedKeepsCards(cards, n - 1, b);
      var c := cards[n - 1];
      var taken := c.kind != Comment && BucketOf(c) == b;
      var p := Pending(cards, n - 1);
      var extra := if taken then (if p.Some? then [p.value] else []) + [c] else [];
      assert Routed(cards, n, b) == Routed(cards, n - 1, b) + extra;
      assert Selected(cards, n, b) == Selected(cards, n - 1, b) + (if taken then [c] else []);
      AppendStep(Routed(cards, n - 1, b), Selected(cards, n - 1, b), p, c, taken);
    }
  }

  /** Appending one step's output to a list whose cards are `s` gives `s` plus the step's card. */
  lemma AppendStep(routed: seq<Card>, s: seq<Card>, p: Option<Card>, c: Card, taken: bool)
    requires Uncommented(routed) == s
    requires p.Some? ==> p.value.kind == Comment
    requires taken ==> c.kind != Comment
    ensures Uncommented(routed + (if taken then (if p.Some? then [p.value] else []) + [c] else []))
            == s + (if taken then [c] else [])
  {
    var extra := if taken then (if p.Some? then [p.value] else []) + [c] else [];
    UncommentedAppend(routed, extra);
    StepUncommented(p, c, taken);
  }

  /** What one step adds to a list, without its comments, is the card itself or nothing. */
  lemma StepUncommented(p: Option<Card>, c: Card, taken: bool)
    requires p.Some? ==> p.value.kind == Comment
    requires taken ==> c.kind != Comment
    ensures Uncommented(if taken then (if p.Some? then [p.value] else []) + [c] else []) == (if taken then [c] else [])
  {
    if taken && p.Some? {
      assert ([p.value] + [c])[..1] == [p.value];
      assert Uncommented([p.value]) == Uncommented([]) + [];
    } else if taken {
      assert Uncommented([c]) == Uncommented([]) + [c];
    }
  }

  /**
   * Every card that is not a comment is selected for its own list and for no
   * other, so the lists partition the cards.
   */
  lemma {:induction false} SelectedPartition(cards: seq<Card>, n: nat, b: Bucket)
    requires n <= |cards|
    ensures forall x :: x in Selected(cards, n, b) ==> x.kind != Comment && BucketOf(x) == b
    ensures forall k :: 0 <= k < n && cards[k].kind != Comment && BucketOf(cards[k]) == b ==>
              cards[k] in Selected(cards, n, b)
  {
    if n > 0 {
      SelectedPartition(cards, n - 1, b);
      var c := cards[n - 1];
      assert Selected(cards, n, b) == Selected(cards, n - 1, b) + (if c.kind != Comment && BucketOf(c) == b then [c] else []);
    }
  }

  /** The number of cards of `cards[..n]` that are not comments and follow a comment. */
  function Introduced(cards: seq<Card>, n: nat): nat
    requires n <= |cards|
  {
    if n == 0 then 0
    else Introduced(cards, n - 1) + (if cards[n - 1].kind != Comment && Pending(cards, n - 1).Some? then 1 else 0)
  }

  /**
   * The four lists together hold every card that is not a comment, plus one
   * comment for each of them that followed a comment.
   */
  lemma {:induction false} RoutedTotal(cards: seq<Card>, n: nat)
    requires n <= |cards|
    ensures |Routed(cards, n, Materials)| + |Routed(cards, n, Transformations)|
            + |Routed(cards, n, SdefCards)| + |Routed(cards, n, Others)|
            == |Uncommented(cards[..n])| + Introduced(cards, n)
  {
    if n > 0 {
      RoutedTotal(cards, n - 1);
      assert cards[..n][..n - 1] == cards[..n - 1];
    }
  }

  /** A comment with no card after it is dropped. */
  lemma TrailingCommentDropped(cards: seq<Card>, c: Card, b: Bucket)
    requires c.kind == Comment
    ensures Routed(cards + [c], |cards| + 1, b) == Routed(cards, |cards|, b)
  {
    RoutedPrefix(cards, [c], |cards|, b);
  }

  /** Of two comments before a card, only the second is kept, in that card's list. */
  lemma LastCommentWins(cards: seq<Card>, c1: Card, c2: Card, x: Card)
    requires c1.kind == Comment && c2.kind == Comment && x.kind != Comment
    ensures var all := cards + [c1, c2, x];
            Routed(all, |all|, BucketOf(x)) == Routed(cards, |cards|, BucketOf(x)) + [c2, x]
  {
    var all := cards + [c1, c2, x];
    var n := |cards|;
    var b := BucketOf(x);
    RoutedPrefix(cards, [c1, c2, x], n, b);
    assert all[n] == c1 && all[n + 1] == c2 && all[n + 2] == x;
    assert Routed(all, n + 1, b) == Routed(all, n, b);
    assert Routed(all, n + 2, b) == Routed(all, n, b);
    assert Pending(all, n + 2) == Some(c2);
    assert Routed(all, n + 3, b) == Routed(all, n + 2, b) + [c2, x];
  }

  /** The reference on a prefix does not look past the prefix. */
  lemma {:induction false} RoutedPrefix(cards: seq<Card>, more: seq<Card>, n: nat, b: Bucket)
    requires n <= |cards|
    ensures Routed(cards + more, n, b) == Routed(cards, n, b)
  {
    if n > 0 {
      RoutedPrefix(cards, more, n - 1, b);
      assert (cards + more)[n - 1] == cards[n - 1];
      if n >= 2 {
        assert (cards + more)[n - 2] == cards[n - 2];
      }
    }
  }
}
