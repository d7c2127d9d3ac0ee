/** Select Graphic Rendition, section 8.3.117 of ECMA-48: reading it, printing it, and the round trip. */
module Sgr {
  import opened Sequences
  import opened Params

  /** `kind` selects the colour space: 0 default, 1 basic, 2 indexed, 3 RGB. */
  datatype Color = Color(kind: Byte, val: Byte, r: Byte, g: Byte, b: Byte)

  const DEFAULT := Color(0, 0, 0, 0, 0)

  datatype Style = Style(fg: Color, bg: Color, underlineColor: Color, bold: bool, dim: bool, italic: bool,
                         underline: bool, doubleUnderline: bool, overline: bool, blink: bool, inverse: bool,
                         strikethrough: bool, hidden: bool)

  const PLAIN := Style(DEFAULT, DEFAULT, DEFAULT, false, false, false, false, false, false, false, false, false, false)

  function ClampByte(v: int): (b: Byte)
    ensures 0 <= v <= 255 ==> b == v
  {
    if v < 0 then 0 else if v > 255 then 255 else v
  }

  function Basic(val: Byte): Color { Color(1, val, 0, 0, 0) }
  function Indexed(val: Byte): Color { Color(2, val, 0, 0, 0) }
  function Rgb(r: Byte, g: Byte, b: Byte): Color { Color(3, 0, r, g, b) }

  // ---- reading ----

  /** The colon form, mode and components in one group of at least three values. */
  function ColonColor(g: seq<nat>, c: Color): Color
    requires |g| >= 3
  {
    if g[1] == 5 then Indexed(ClampByte(g[2]))
    else if g[1] == 2 then
      if |g| >= 6 then Rgb(ClampByte(g[3]), ClampByte(g[4]), ClampByte(g[5]))
      else if |g| == 5 then Rgb(ClampByte(g[2]), ClampByte(g[3]), ClampByte(g[4]))
      else if |g| == 4 then Rgb(ClampByte(g[2]), ClampByte(g[3]), 0)
      else c
    else c
  }

  /** The semicolon form: the colour, and how many groups it took, the first included. */
  function LegacyColor(gs: seq<seq<nat>>, c: Color): (r: (Color, nat))
    requires gs != []
    ensures 1 <= r.1 <= |gs|
  {
    if |gs| < 2 then (c, 1)
    else if gs[1] == [] then (c, 2)
    else if gs[1][0] == 5 && |gs| > 2 then (if gs[2] != [] then Indexed(ClampByte(gs[2][0])) else c, 3)
    else if gs[1][0] == 2 && |gs| > 4 then
      (if gs[2] != [] && gs[3] != [] && gs[4] != [] then Rgb(ClampByte(gs[2][0]), ClampByte(gs[3][0]), ClampByte(gs[4][0])) else c, 5)
    else (c, 2)
  }

  function ExtColor(gs: seq<seq<nat>>, c: Color): (r: (Color, nat))
    requires gs != []
    ensures 1 <= r.1 <= |gs|
  {
    if |gs[0]| >= 3 then (ColonColor(gs[0], c), 1) else LegacyColor(gs, c)
  }

  /** The parameters below 30, and the overline pair. */
  function FlagAttribute(g: seq<nat>, st: Style): Style
    requires g != []
  {
    var p := g[0];
    if p == 0 then PLAIN
    else if p == 1 then st.(bold := true)
    else if p == 2 then st.(dim := true)
    else if p == 3 then st.(italic := true)
    else if p == 4 then
      if |g| >= 2 then
        if g[1] == 0 then st.(underline := false, doubleUnderline := false)
        else if g[1] == 2 then st.(underline := false, doubleUnderline := true)
        else st.(underline := true, doubleUnderline := false)
      else st.(underline := true)
    else if p == 5 || p == 6 then st.(blink := true)
    else if p == 7 then st.(inverse := true)
    else if p == 8 then st.(hidden := true)
    else if p == 9 then st.(strikethrough := true)
    else if p == 21 then st.(underline := false, doubleUnderline := true)
    else if p == 22 then st.(bold := false, dim := false)
    else if p == 23 then st.(italic := false)
    else if p == 24 then st.(underline := false, doubleUnderline := false)
    else if p == 25 then st.(blink := false)
    else if p == 27 then st.(inverse := false)
    else if p == 28 then st.(hidden := false)
    else if p == 29 then st.(strikethrough := false)
    else if p == 53 then st.(overline := true)
    else if p == 55 then st.(overline := false)
    else st
  }

  function ColorAttribute(p: nat, st: Style): Style {
    if 30 <= p <= 37 then st.(fg := Basic(p - 30))
    else if p == 39 then st.(fg := DEFAULT)
    else if 40 <= p <= 47 then st.(bg := Basic(p - 40))
    else if p == 49 then st.(bg := DEFAULT)
    else if p == 59 then st.(underlineColor := DEFAULT)
    else if 90 <= p <= 97 then st.(fg := Basic(p - 90 + 8))
    else if 100 <= p <= 107 then st.(bg := Basic(p - 100 + 8))
    else st
  }

  /** The parameters that take one group. */
  function Attribute(g: seq<nat>, st: Style): Style
    requires g != []
  {
    if g[0] < 30 || g[0] == 53 || g[0] == 55 then FlagAttribute(g, st) else ColorAttribute(g[0], st)
  }

  /** One parameter: the style after it, and how many groups it took. */
  function Step(gs: seq<seq<nat>>, st: Style): (r: (Style, nat))
    requires gs != []
    ensures 1 <= r.1 <= |gs|
  {
    var g := gs[0];
    if g == [] then (st, 1)
    else if g[0] == 38 then var e := ExtColor(gs, st.fg); (st.(fg := e.0), e.1)
    else if g[0] == 48 then var e := ExtColor(gs, st.bg); (st.(bg := e.0), e.1)
    else if g[0] == 58 then var e := ExtColor(gs, st.underlineColor); (st.(underlineColor := e.0), e.1)
    else (Attribute(g, st), 1)
  }

  function Apply(gs: seq<seq<nat>>, st: Style): Style
    decreases |gs|
  {
    if gs == [] then st else var r := Step(gs, st); Apply(gs[r.1..], r.0)
  }

  /** Groups as the reader sees them, at most MAX_GROUP values each. */
  function Clipped(gs: seq<seq<nat>>): (r: seq<seq<nat>>)
    ensures |r| == |gs| && forall i :: 0 <= i < |r| ==> r[i] == gs[i][..Min(|gs[i]|, MAX_GROUP)]
  {
    seq(|gs|, i requires 0 <= i < |gs| => gs[i][..Min(|gs[i]|, MAX_GROUP)])
  }

  /** The reader over the parameter array: an index into the groups, moved past what each parameter took. */
  class Pen {
    var style: Style

    constructor (st: Style)
      ensures style == st
    {
      style := st;
    }

    method ParseExtColorLegacy(ps: ParserState, i: nat, c: Color) returns (color: Color, next: nat)
      requires ps.Valid() && i < ps.numGroups
      ensures var r := LegacyColor(Clipped(ps.groups)[i..], c); color == r.0 && next == i + r.1 - 1
    {
      if i + 1 >= ps.numGroups {
        return c, i;
      }
      var modeGroup := ps.ParamGroup(i + 1);
      if modeGroup == [] {
        return c, i + 1;
      }
      if modeGroup[0] == 5 {
        if i + 2 < ps.numGroups {
          var vg := ps.ParamGroup(i + 2);
          return if vg != [] then Indexed(ClampByte(vg[0])) else c, i + 2;
        }
      } else if modeGroup[0] == 2 {
        if i + 4 < ps.numGroups {
          var rg := ps.ParamGroup(i + 2);
          var gg := ps.ParamGroup(i + 3);
          var bg := ps.ParamGroup(i + 4);
          return if rg != [] && gg != [] && bg != [] then Rgb(ClampByte(rg[0]), ClampByte(gg[0]), ClampByte(bg[0])) else c, i + 4;
        }
      }
      return c, i + 1;
    }

    method ParseExtColorGroup(ps: ParserState, i: nat, c: Color) returns (color: Color, next: nat)
      requires ps.Valid() && i < ps.numGroups
      ensures var r := ExtColor(Clipped(ps.groups)[i..], c); color == r.0 && next == i + r.1 - 1
    {
      var g := ps.ParamGroup(i);
      if |g| >= 3 {
        return ColonColor(g, c), i;
      }
      color, next := ParseExtColorLegacy(ps, i, c);
    }

    /** One parameter; returns the index of the last group it took. */
    method Parameter(ps: ParserState, i: nat) returns (last: nat)
      requires ps.Valid() && i < ps.numGroups
      modifies this
      ensures var r := Step(Clipped(ps.groups)[i..], old(style)); style == r.0 && last == i + r.1 - 1
    {
      hide Attribute, ExtColor;
      var g := ps.ParamGroup(i);
      last := i;
      if g == [] {
        return;
      }
      if g[0] == 38 {
        var c;
        c, last := ParseExtColorGroup(ps, i, style.fg);
        style := style.(fg := c);
      } else if g[0] == 48 {
        var c;
        c, last := ParseExtColorGroup(ps, i, style.bg);
        style := style.(bg := c);
      } else if g[0] == 58 {
        var c;
        c, last := ParseExtColorGroup(ps, i, style.underlineColor);
        style := style.(underlineColor := c);
      } else {
        style := Attribute(g, style);
      }
    }

    method ApplySGR(ps: ParserState)
      requires ps.Valid()
      modifies this
      ensures style == Apply(Clipped(ps.groups), old(style))
    {
      hide Step;
      if ps.numGroups == 1 && ps.numParams == 1 && ps.params[0] == 0 {
        LoneZero(ps);
        style := PLAIN;
        return;
      }
      ghost var gs := Clipped(ps.groups);
      var i := 0;
      while i < ps.numGroups
        invariant 0 <= i <= |gs| && ps.Valid() && gs == Clipped(ps.groups)
        invariant Apply(gs[i..], style) == Apply(gs, old(style))
        decreases ps.numGroups - i
      {
        ghost var r := Step(gs[i..], style);
        assert gs[i..][r.1..] == gs[i + r.1..];
        i := Parameter(ps, i);
        i := i + 1;
      }
    }

    lemma LoneZero(ps: ParserState)
      requires ps.Valid() && ps.numGroups == 1 && ps.numParams == 1 && ps.params[0] == 0
      ensures forall st :: Apply(Clipped(ps.groups), st) == PLAIN
    {
      FlattenSingleton(ps.groups[0]);
      assert ps.groups == [ps.groups[0]] && ps.groups[0] == [0];
      var gs := Clipped(ps.groups);
      assert gs == [[0]] && gs[1..] == [];
    }
  }
}
