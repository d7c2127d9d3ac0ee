/** Laws of SGR that no printed style exercises: what each number sets, what its reset undoes, and that the colon and the
    semicolon form of an extended colour mean the same. */
module SgrLaws {
  import opened Sequences
  import opened Sgr

  predicate Extended(p: nat) { p == 38 || p == 48 || p == 58 }

  lemma One(g: seq<nat>, st: Style)
    requires g != [] && !Extended(g[0])
    ensures Apply([g], st) == Attribute(g, st)
  {
    assert [g][1..] == [];
  }

  lemma Two(a: seq<nat>, b: seq<nat>, st: Style)
    requires a != [] && b != [] && !Extended(a[0]) && !Extended(b[0])
    ensures Apply([a, b], st) == Attribute(b, Attribute(a, st))
  {
    assert [a, b][1..] == [b];
    One(b, Attribute(a, st));
  }

  /** What a number by itself does, from any style; 0 sets everything back. */
  lemma EachSets(st: Style)
    ensures Apply([[0]], st) == PLAIN
    ensures Apply([[1]], st) == st.(bold := true) && Apply([[2]], st) == st.(dim := true) && Apply([[3]], st) == st.(italic := true)
    ensures Apply([[4]], st) == st.(underline := true) && Apply([[21]], st) == st.(underline := false, doubleUnderline := true)
    ensures Apply([[5]], st) == Apply([[6]], st) == st.(blink := true)
    ensures Apply([[7]], st) == st.(inverse := true) && Apply([[8]], st) == st.(hidden := true)
    ensures Apply([[9]], st) == st.(strikethrough := true) && Apply([[53]], st) == st.(overline := true)
  {
    hide Apply, Attribute;
    forall p | p < 30 || p == 53 ensures Apply([[p]], st) == Attribute([p], st) { One([p], st); }
    EachFlag(st);
    EachLine(st);
  }

  lemma EachFlag(st: Style)
    ensures Attribute([0], st) == PLAIN
    ensures Attribute([1], st) == st.(bold := true) && Attribute([2], st) == st.(dim := true) && Attribute([3], st) == st.(italic := true)
    ensures Attribute([5], st) == Attribute([6], st) == st.(blink := true)
    ensures Attribute([7], st) == st.(inverse := true) && Attribute([8], st) == st.(hidden := true)
  {}

  lemma EachLine(st: Style)
    ensures Attribute([4], st) == st.(underline := true) && Attribute([21], st) == st.(underline := false, doubleUnderline := true)
    ensures Attribute([9], st) == st.(strikethrough := true) && Attribute([53], st) == st.(overline := true)
  {}

  // A reset, from any style and after any number it undoes: the attribute is off, or both that share the reset, and
  // nothing else has changed.

  lemma WeightOff(st: Style)
    ensures Attribute([22], st) == st.(bold := false, dim := false)
  {}

  lemma WeightReset(st: Style)
    ensures Apply([[22]], st) == st.(bold := false, dim := false)
    ensures Apply([[1], [22]], st) == st.(bold := false, dim := false)
    ensures Apply([[2], [22]], st) == st.(bold := false, dim := false)
  {
    hide Apply, Attribute;
    One([22], st);
    WeightOff(st);
    EachFlag(st);
    Two([1], [22], st);
    WeightOff(Attribute([1], st));
    Two([2], [22], st);
    WeightOff(Attribute([2], st));
  }

  lemma ItalicOff(st: Style)
    ensures Attribute([23], st) == st.(italic := false)
  {}

  lemma ItalicReset(st: Style)
    ensures Apply([[23]], st) == st.(italic := false)
    ensures Apply([[3], [23]], st) == st.(italic := false)
  {
    hide Apply, Attribute;
    One([23], st);
    ItalicOff(st);
    EachFlag(st);
    Two([3], [23], st);
    ItalicOff(Attribute([3], st));
  }

  lemma UnderlineOff(st: Style)
    ensures Attribute([24], st) == st.(underline := false, doubleUnderline := false)
  {}

  lemma UnderlineReset(st: Style)
    ensures Apply([[24]], st) == st.(underline := false, doubleUnderline := false)
    ensures Apply([[4], [24]], st) == st.(underline := false, doubleUnderline := false)
  {
    hide Apply, Attribute;
    One([24], st);
    UnderlineOff(st);
    EachLine(st);
    Two([4], [24], st);
    UnderlineOff(Attribute([4], st));
  }

  lemma BlinkOff(st: Style)
    ensures Attribute([25], st) == st.(blink := false)
  {}

  lemma BlinkReset(st: Style)
    ensures Apply([[25]], st) == st.(blink := false)
    ensures Apply([[5], [25]], st) == st.(blink := false)
  {
    hide Apply, Attribute;
    One([25], st);
    BlinkOff(st);
    EachFlag(st);
    Two([5], [25], st);
    BlinkOff(Attribute([5], st));
  }

  lemma InverseOff(st: Style)
    ensures Attribute([27], st) == st.(inverse := false)
  {}

  lemma InverseReset(st: Style)
    ensures Apply([[27]], st) == st.(inverse := false)
    ensures Apply([[7], [27]], st) == st.(inverse := false)
  {
    hide Apply, Attribute;
    One([27], st);
    InverseOff(st);
    EachFlag(st);
    Two([7], [27], st);
    InverseOff(Attribute([7], st));
  }

  lemma HiddenOff(st: Style)
    ensures Attribute([28], st) == st.(hidden := false)
  {}

  lemma HiddenReset(st: Style)
    ensures Apply([[28]], st) == st.(hidden := false)
    ensures Apply([[8], [28]], st) == st.(hidden := false)
  {
    hide Apply, Attribute;
    One([28], st);
    HiddenOff(st);
    EachFlag(st);
    Two([8], [28], st);
    HiddenOff(Attribute([8], st));
  }

  lemma StrikethroughOff(st: Style)
    ensures Attribute([29], st) == st.(strikethrough := false)
  {}

  lemma StrikethroughReset(st: Style)
    ensures Apply([[29]], st) == st.(strikethrough := false)
    ensures Apply([[9], [29]], st) == st.(strikethrough := false)
  {
    hide Apply, Attribute;
    One([29], st);
    StrikethroughOff(st);
    EachLine(st);
    Two([9], [29], st);
    StrikethroughOff(Attribute([9], st));
  }

  lemma OverlineOff(st: Style)
    ensures Attribute([55], st) == st.(overline := false)
  {}

  lemma OverlineReset(st: Style)
    ensures Apply([[55]], st) == st.(overline := false)
    ensures Apply([[53], [55]], st) == st.(overline := false)
  {
    hide Apply, Attribute;
    One([55], st);
    OverlineOff(st);
    EachLine(st);
    Two([53], [55], st);
    OverlineOff(Attribute([53], st));
  }

  lemma RapidBlinkReset(st: Style)
    ensures Apply([[6], [25]], st) == st.(blink := false)
  {
    hide Apply, Attribute;
    EachFlag(st);
    Two([6], [25], st);
    BlinkOff(Attribute([6], st));
  }

  lemma DoubleUnderlineReset(st: Style)
    ensures Apply([[21], [24]], st) == st.(underline := false, doubleUnderline := false)
  {
    hide Apply, Attribute;
    EachLine(st);
    Two([21], [24], st);
    UnderlineOff(Attribute([21], st));
  }

  /** The sub-parameter of an underline: none, double, and every other kind single. */
  lemma UnderlineKinds(st: Style, kind: nat)
    ensures Apply([[4, kind]], st) == if kind == 0 then st.(underline := false, doubleUnderline := false)
                                      else if kind == 2 then st.(underline := false, doubleUnderline := true)
                                      else st.(underline := true, doubleUnderline := false)
  {
    hide Apply;
    One([4, kind], st);
  }

  /** The sixteen basic colours. */
  lemma BasicColors(st: Style, n: nat)
    requires n < 8
    ensures Apply([[30 + n]], st) == st.(fg := Color(1, n, 0, 0, 0)) && Apply([[90 + n]], st) == st.(fg := Color(1, n + 8, 0, 0, 0))
    ensures Apply([[40 + n]], st) == st.(bg := Color(1, n, 0, 0, 0)) && Apply([[100 + n]], st) == st.(bg := Color(1, n + 8, 0, 0, 0))
  {
    hide Apply, Attribute;
    BasicText(st, n);
    BasicGround(st, n);
    One([30 + n], st);
    One([90 + n], st);
    One([40 + n], st);
    One([100 + n], st);
  }

  lemma BasicText(st: Style, n: nat)
    requires n < 8
    ensures Attribute([30 + n], st) == st.(fg := Color(1, n, 0, 0, 0)) && Attribute([90 + n], st) == st.(fg := Color(1, n + 8, 0, 0, 0))
  {}

  lemma BasicGround(st: Style, n: nat)
    requires n < 8
    ensures Attribute([40 + n], st) == st.(bg := Color(1, n, 0, 0, 0)) && Attribute([100 + n], st) == st.(bg := Color(1, n + 8, 0, 0, 0))
  {}

  /** The numbers that set a colour back. */
  lemma DefaultColors(st: Style)
    ensures Apply([[39]], st) == st.(fg := DEFAULT) && Apply([[49]], st) == st.(bg := DEFAULT)
    ensures Apply([[59]], st) == st.(underlineColor := DEFAULT)
  {
    hide Apply;
    One([39], st);
    One([49], st);
    One([59], st);
  }

  predicate Means(p: nat) {
    p <= 9 || 21 <= p <= 25 || 27 <= p <= 49 || p == 53 || p == 55 || p == 58 || p == 59 || 90 <= p <= 97 || 100 <= p <= 107
  }

  lemma NoFlag(st: Style, p: nat)
    requires 10 <= p <= 20 || p == 26
    ensures FlagAttribute([p], st) == st
  {
    assert p != 0 && p != 1 && p != 2 && p != 3 && p != 4 && p != 5 && p != 6 && p != 7 && p != 8 && p != 9;
  }

  lemma NoColor(st: Style, p: nat)
    requires p == 38 || p == 48 || 50 <= p <= 58 || 60 <= p <= 89 || 98 <= p <= 99 || 108 <= p
    ensures ColorAttribute(p, st) == st
  {}

  lemma NoAttribute(st: Style, p: nat)
    requires !Means(p)
    ensures Attribute([p], st) == st
  {
    hide FlagAttribute, ColorAttribute;
    if p < 30 { NoFlag(st, p); } else { NoColor(st, p); }
  }

  /** Every other number changes nothing. */
  lemma OthersAreIgnored(st: Style, p: nat)
    requires !Means(p)
    ensures Apply([[p]], st) == st
  {
    hide Attribute;
    NoAttribute(st, p);
    One([p], st);
  }

  // ---- extended colours ----

  function Painted(p: nat, c: Color, st: Style): Style {
    if p == 38 then st.(fg := c) else if p == 48 then st.(bg := c) else st.(underlineColor := c)
  }

  lemma Takes(gs: seq<seq<nat>>, rest: seq<seq<nat>>, st: Style)
    requires gs != [] && Step(gs + rest, st).1 == |gs|
    ensures Apply(gs + rest, st) == Apply(rest, Step(gs + rest, st).0)
  {
    assert (gs + rest)[|gs|..] == rest;
  }

  /** An indexed colour, of the text, the background or the underline, in either form and whatever follows it. */
  lemma IndexedForms(p: nat, n: nat, rest: seq<seq<nat>>, st: Style)
    requires Extended(p)
    ensures Apply([[p, 5, n]] + rest, st) == Apply([[p], [5], [n]] + rest, st)
         == Apply(rest, Painted(p, Color(2, Min(n, 255), 0, 0, 0), st))
  {
    Takes([[p, 5, n]], rest, st);
    Takes([[p], [5], [n]], rest, st);
  }

  /** A direct colour in the semicolon form, and in the colon form with a colour space and without. */
  lemma DirectForms(p: nat, space: nat, r: nat, g: nat, b: nat, rest: seq<seq<nat>>, st: Style)
    requires Extended(p)
    ensures var after := Apply(rest, Painted(p, Color(3, 0, Min(r, 255), Min(g, 255), Min(b, 255)), st));
      && Apply([[p, 2, r, g, b]] + rest, st) == after
      && Apply([[p, 2, space, r, g, b]] + rest, st) == after
      && Apply([[p], [2], [r], [g], [b]] + rest, st) == after
  {
    hide Apply;
    Takes([[p, 2, r, g, b]], rest, st);
    Takes([[p, 2, space, r, g, b]], rest, st);
    Takes([[p], [2], [r], [g], [b]], rest, st);
  }

  /** Two components alone leave blue at none. */
  lemma PartialColon(p: nat, r: nat, g: nat, rest: seq<seq<nat>>, st: Style)
    requires Extended(p)
    ensures Apply([[p, 2, r, g]] + rest, st) == Apply(rest, Painted(p, Color(3, 0, Min(r, 255), Min(g, 255), 0), st))
  {
    Takes([[p, 2, r, g]], rest, st);
  }

  lemma ExtStep(gs: seq<seq<nat>>, st: Style)
    requires gs != [] && gs[0] != [] && Extended(gs[0][0])
    ensures var p := gs[0][0];
      Step(gs, st) == (var e := ExtColor(gs, if p == 38 then st.fg else if p == 48 then st.bg else st.underlineColor);
                       (Painted(p, e.0, st), e.1))
  {
    hide ExtColor, Attribute;
  }

  lemma StepBroken(p: nat, mode: nat, rest: seq<seq<nat>>, st: Style)
    requires Extended(p) && (mode == 5 ==> rest == []) && (mode == 2 ==> |rest| < 3)
    ensures Step([[p]], st) == (st, 1) && Step([[p], [mode]] + rest, st) == (st, 2)
  {
    hide ExtColor, Attribute;
    Broken(p, mode, rest, st.fg);
    Broken(p, mode, rest, st.bg);
    Broken(p, mode, rest, st.underlineColor);
  }

  lemma Broken(p: nat, mode: nat, rest: seq<seq<nat>>, c: Color)
    requires (mode == 5 ==> rest == []) && (mode == 2 ==> |rest| < 3)
    ensures ExtColor([[p]], c) == (c, 1) && ExtColor([[p], [mode]] + rest, c) == (c, 2)
  {
    assert ([[p], [mode]] + rest)[0] == [p] && ([[p], [mode]] + rest)[1] == [mode];
  }

  /** A colour that breaks off leaves the style as it is: the code alone, or with a mode whose values are missing, which
      are then read as parameters of their own. */
  lemma BrokenOff(p: nat, mode: nat, rest: seq<seq<nat>>, st: Style)
    requires Extended(p) && (mode == 5 ==> rest == []) && (mode == 2 ==> |rest| < 3)
    ensures Apply([[p]], st) == st && Apply([[p], [mode]] + rest, st) == Apply(rest, st)
  {
    StepBroken(p, mode, rest, st);
    hide Step;
    assert [[p]] == [[p]] + [];
    Takes([[p]], [], st);
    Takes([[p], [mode]], rest, st);
  }

  /** A colon form of another mode means nothing. */
  lemma UnknownColon(p: nat, mode: nat, n: nat, rest: seq<seq<nat>>, st: Style)
    requires Extended(p) && mode != 2 && mode != 5
    ensures Apply([[p, mode, n]] + rest, st) == Apply(rest, st)
  {
    StepUnknown(p, mode, n, rest, st);
    hide Step;
    Takes([[p, mode, n]], rest, st);
  }

  lemma StepUnknown(p: nat, mode: nat, n: nat, rest: seq<seq<nat>>, st: Style)
    requires Extended(p) && mode != 2 && mode != 5
    ensures Step([[p, mode, n]] + rest, st) == (st, 1)
  {
    hide Step, LegacyColor;
    ExtStep([[p, mode, n]] + rest, st);
  }
}
