/**
 * The semantic actions of the material card parser: the `NAME` token value,
 * the `option` action, the left-recursive list rules for fractions,
 * options and comments, and `build_composition`, which splits the
 * fractions by sign into atomic and weight fractions and assembles the
 * composition options.
 */
module MaterialParser {
  import opened Wrappers
  import opened Text

  /** `mat.Element` as the parser builds it: isotope, library and end-of-line comment. */
  datatype Element = Element(isotope: nat, lib: string, comment: Option<string>)

  /** An element with its fraction as written: negative for a weight fraction. */
  type Fraction = (Element, real)

  /** A value of the composition options: `name`, `gas`/`estep`/`cond`, library names, `comment`. */
  datatype OptValue = IntValue(n: int) | StrValue(s: string) | Comments(lines: seq<string>)

  /** The arguments given to `mat.Composition`. */
  datatype Composition = Composition(atomic: seq<Fraction>, weight: seq<Fraction>, options: map<string, OptValue>)

  // ---------------------------------------------------------------------
  // NAME token
  // ---------------------------------------------------------------------

  /** The lexer's `m\d+` in either case. */
  predicate IsNameToken(token: string)
  {
    |token| >= 2 && (token[0] == 'm' || token[0] == 'M') && AllDigits(token[1..])
  }

  /** The value of a `NAME` token: the number after the `m`. */
  function NameValue(token: string): nat
    requires IsNameToken(token)
  {
    DigitsValue(token[1..])
  }

  /** The name of material n, spelt either way, reads back as n. */
  lemma NameRoundTrip(n: nat)
    ensures IsNameToken("m" + DecimalString(n)) && NameValue("m" + DecimalString(n)) == n
    ensures IsNameToken("M" + DecimalString(n)) && NameValue("M" + DecimalString(n)) == n
  {
    DecimalRoundTrip(n);
    assert ("m" + DecimalString(n))[1..] == DecimalString(n);
    assert ("M" + DecimalString(n))[1..] == DecimalString(n);
  }

  /** Leading zeros do not change the material number. */
  lemma NameLeadingZero(token: string)
    requires IsNameToken(token)
    ensures IsNameToken(token[..1] + "0" + token[1..])
    ensures NameValue(token[..1] + "0" + token[1..]) == NameValue(token)
  {
    var padded := token[..1] + "0" + token[1..];
    assert padded[1..] == "0" + token[1..];
    LeadingZeroValue(token[1..]);
  }

  lemma {:induction false} LeadingZeroValue(s: string)
    requires AllDigits(s)
    ensures AllDigits("0" + s) && DigitsValue("0" + s) == DigitsValue(s)
  {
    if s != [] {
      var p := s[..|s| - 1];
      LeadingZeroValue(p);
      assert ("0" + s)[..|"0" + s| - 1] == "0" + p;
    }
  }

  // ---------------------------------------------------------------------
  // List rules
  // ---------------------------------------------------------------------

  /**
   * The left-recursive rules `fractions : fractions fraction | fraction` and
   * `comments : comments comment | comment`: the first item starts a list and
   * every later one is appended to it.
   */
  function ReduceList<T>(items: seq<T>): seq<T>
    requires |items| >= 1
  {
    if |items| == 1 then [items[0]]
    else ReduceList(items[..|items| - 1]) + [items[|items| - 1]]
  }

  /** The reduced list holds the items in source order. */
  lemma {:induction false} ReducedInOrder<T>(items: seq<T>)
    requires |items| >= 1
    ensures ReduceList(items) == items
  {
    if |items| > 1 {
      ReducedInOrder(items[..|items| - 1]);
      assert items[..|items| - 1] + [items[|items| - 1]] == items;
    }
  }

  /**
   * The `option` action: the keyword is lower-cased, and the value becomes an
   * integer for `gas`, `estep` and `cond` and stays a string otherwise. The
   * lexer gives those three keywords a run of digits.
   */
  function OptionAction(keyword: string, value: string): (r: (string, OptValue))
    requires Lower(keyword) in {"gas", "estep", "cond"} ==> value != [] && AllDigits(value)
    ensures r.0 == Lower(keyword)
    ensures r.1.IntValue? <==> r.0 in {"gas", "estep", "cond"}
    ensures r.1.IntValue? ==> r.1.n == DigitsValue(value)
    ensures r.0 !in {"gas", "estep", "cond"} ==> r.1 == StrValue(value)
  {
    var option := Lower(keyword);
    if option in {"gas", "estep", "cond"} then (option, IntValue(DigitsValue(value)))
    else (option, StrValue(value))
  }

  /** The keyword's case does not matter, and an integer option reads back its number. */
  lemma OptionCaseInsensitive(keyword: string, n: nat)
    requires Lower(keyword) in {"gas", "estep", "cond"}
    ensures OptionAction(keyword, DecimalString(n)) == OptionAction(Upper(keyword), DecimalString(n))
    ensures OptionAction(keyword, DecimalString(n)).1 == IntValue(n)
  {
    LowerOfUpper(keyword);
    DecimalRoundTrip(n);
  }

  lemma LowerOfUpper(s: string)
    ensures Lower(Upper(s)) == Lower(s)
  {
    assert forall i :: 0 <= i < |s| ==> LowerChar(UpperChar(s[i])) == LowerChar(s[i]);
  }

  /**
   * The rules `options : options option | option`: the first option starts a
   * dictionary and each later one is written into it.
   */
  function OptionsOf(opts: seq<(string, OptValue)>): map<string, OptValue>
    requires |opts| >= 1
  {
    if |opts| == 1 then map[opts[0].0 := opts[0].1]
    else OptionsOf(opts[..|opts| - 1])[opts[|opts| - 1].0 := opts[|opts| - 1].1]
  }

  /** Every keyword given is present, and its value is the one of its last occurrence. */
  lemma {:induction false} LastOptionWins(opts: seq<(string, OptValue)>, key: string)
    requires |opts| >= 1
    ensures key in OptionsOf(opts) <==> exists j :: 0 <= j < |opts| && opts[j].0 == key
    ensures key in OptionsOf(opts) ==>
              exists j :: 0 <= j < |opts| && opts[j] == (key, OptionsOf(opts)[key])
                          && forall l :: j < l < |opts| ==> opts[l].0 != key
  {
    var n := |opts| - 1;
    if n > 0 {
      var p := opts[..n];
      LastOptionWins(p, key);
      assert forall j :: 0 <= j < n ==> p[j] == opts[j];
      if opts[n].0 != key && key in OptionsOf(p) {
        var j :| 0 <= j < |p| && p[j] == (key, OptionsOf(p)[key]) && forall l :: j < l < |p| ==> p[l].0 != key;
        assert forall l :: j < l < |opts| ==> opts[l].0 != key;
      }
    }
  }

  // ---------------------------------------------------------------------
  // build_composition
  // ---------------------------------------------------------------------

  /** The non-negative fractions, unchanged and in order. */
  function AtomicPart(fractions: seq<Fraction>): seq<Fraction>
  {
    if fractions == [] then []
    else
      var f := fractions[|fractions| - 1];
      AtomicPart(fractions[..|fractions| - 1]) + (if f.1 < 0.0 then [] else [f])
  }

  /** The negative fractions, negated and in order. */
  function WeightPart(fractions: seq<Fraction>): seq<Fraction>
  {
    if fractions == [] then []
    else
      var f := fractions[|fractions| - 1];
      WeightPart(fractions[..|fractions| - 1]) + (if f.1 < 0.0 then [(f.0, -f.1)] else [])
  }

  predicate HasComments(comments: Option<seq<string>>)
  {
    comments.Some? && comments.value != []
  }

  /**
   * The options of the composition: the given options, or none, with `name`
   * set to the material number, and `comment` set to the comments when
   * there are any.
   */
  function CompositionOptions(name: nat, options: Option<map<string, OptValue>>,
                              comments: Option<seq<string>>): (r: map<string, OptValue>)
    ensures "name" in r && r["name"] == IntValue(name)
    ensures HasComments(comments) ==> "comment" in r && r["comment"] == Comments(comments.value)
    ensures forall key :: key in r && key != "name" && !(key == "comment" && HasComments(comments)) ==>
              options.Some? && key in options.value && r[key] == options.value[key]
    ensures forall key :: options.Some? && key in options.value ==> key in r
  {
    var named := if options.None? then map["name" := IntValue(name)] else options.value["name" := IntValue(name)];
    if HasComments(comments) then named["comment" := Comments(comments.value)] else named
  }

  /**
   * `Parser.build_composition`: each fraction goes to the weight list,
   * negated, when it is negative, and to the atomic list otherwise.
   */
  method BuildComposition(name: nat, fractions: seq<Fraction>, options: Option<map<string, OptValue>>,
                          comments: Option<seq<string>>) returns (c: Composition)
    ensures c.atomic == AtomicPart(fractions)
    ensures c.weight == WeightPart(fractions)
    ensures c.options == CompositionOptions(name, options, comments)
  {
    var atomic: seq<Fraction> := [];
    var weight: seq<Fraction> := [];
    var i := 0;
    while i < |fractions|
      invariant 0 <= i <= |fractions|
      invariant atomic == AtomicPart(fractions[..i])
      invariant weight == WeightPart(fractions[..i])
    {
      var (el, fraction) := fractions[i];
      assert fractions[..i + 1][..i] == fractions[..i];
      if fraction < 0.0 {
        weight := weight + [(el, -fraction)];
      } else {
        atomic := atomic + [(el, fraction)];
      }
      i := i + 1;
    }
    assert fractions[..|fractions|] == fractions;
    var opts: map<string, OptValue>;
    if options.None? {
      opts := map["name" := IntValue(name)];
    } else {
      opts := options.value["name" := IntValue(name)];
    }
    if comments.Some? && comments.value != [] {
      opts := opts["comment" := Comments(comments.value)];
    }
    c := Composition(atomic, weight, opts);
  }

  /** Every fraction lands in one list: as many fractions out as in, atomic ones non-negative, weights positive. */
  lemma {:induction false} FractionsSplit(fractions: seq<Fraction>)
    ensures |AtomicPart(fractions)| + |WeightPart(fractions)| == |fractions|
    ensures forall f :: f in AtomicPart(fractions) ==> f in fractions && f.1 >= 0.0
    ensures forall f :: f in WeightPart(fractions) ==> (f.0, -f.1) in fractions && f.1 > 0.0
  {
    if fractions != [] {
      var p := fractions[..|fractions| - 1];
      FractionsSplit(p);
      assert fractions == p + [fractions[|fractions| - 1]];
    }
  }

  /** Every fraction is found in its list: a non-negative one unchanged, a negative one negated. */
  lemma {:induction false} FractionPlaced(fractions: seq<Fraction>, k: nat)
    requires k < |fractions|
    ensures fractions[k].1 >= 0.0 ==> fractions[k] in AtomicPart(fractions)
    ensures fractions[k].1 < 0.0 ==> (fractions[k].0, -fractions[k].1) in WeightPart(fractions)
  {
    var n := |fractions| - 1;
    if k < n {
      FractionPlaced(fractions[..n], k);
    }
  }

  /** The split keeps source order: splitting a concatenation concatenates the splits. */
  lemma SplitAppend(a: seq<Fraction>, b: seq<Fraction>)
    ensures AtomicPart(a + b) == AtomicPart(a) + AtomicPart(b)
    ensures WeightPart(a + b) == WeightPart(a) + WeightPart(b)
  {
    AtomicAppend(a, b);
    WeightAppend(a, b);
  }

  lemma {:induction false} AtomicAppend(a: seq<Fraction>, b: seq<Fraction>)
    ensures AtomicPart(a + b) == AtomicPart(a) + AtomicPart(b)
    decreases |b|
  {
    if b == [] {
      assert a + b == a;
    } else {
      var b' := b[..|b| - 1];
      AtomicAppend(a, b');
      assert (a + b)[..|a + b| - 1] == a + b';
    }
  }

  lemma {:induction false} WeightAppend(a: seq<Fraction>, b: seq<Fraction>)
    ensures WeightPart(a + b) == WeightPart(a) + WeightPart(b)
    decreases |b|
  {
    if b == [] {
      assert a + b == a;
    } else {
      var b' := b[..|b| - 1];
      WeightAppend(a, b');
      assert (a + b)[..|a + b| - 1] == a + b';
    }
  }
}
