/** Printing a style and reading it back. */
module SgrRoundTrip {
  import opened Sequences
  import opened Params
  import opened Sgr

  // ---- printing ----

  function DigitChar(d: nat): (c: char)
    requires d < 10
    ensures '0' <= c <= '9' && (c - '0') as nat == d
  {
    '0' + d as char
  }

  function Itoa(n: nat): string {
    if n < 10 then [DigitChar(n)] else Itoa(n / 10) + [DigitChar(n % 10)]
  }

  function Join(parts: seq<string>): string
    requires parts != []
  {
    if |parts| == 1 then parts[0] else Join(parts[..|parts| - 1]) + ";" + parts[|parts| - 1]
  }

  function Strings(ns: seq<nat>): (r: seq<string>)
    ensures |r| == |ns| && forall i :: 0 <= i < |r| ==> r[i] == Itoa(ns[i])
  {
    seq(|ns|, i requires 0 <= i < |ns| => Itoa(ns[i]))
  }

  function If(b: bool, n: nat): seq<nat> { if b then [n] else [] }

  function ColorNumbers(c: Color, base: nat): seq<nat> {
    if c.kind == 1 then if c.val < 8 then [base + c.val] else [base + 60 + c.val - 8]
    else if c.kind == 2 then [base + 8, 5, c.val]
    else if c.kind == 3 then [base + 8, 2, c.r, c.g, c.b]
    else []
  }

  function UnderlineNumbers(c: Color): seq<nat> {
    if c.kind == 2 then [58, 5, c.val] else if c.kind == 3 then [58, 2, c.r, c.g, c.b] else []
  }

  /** The attributes in printing order, each with its number. */
  function Flags(st: Style): seq<(bool, nat)> {
    [(st.bold, 1), (st.dim, 2), (st.italic, 3), (st.underline, 4), (st.doubleUnderline, 21), (st.blink, 5),
     (st.inverse, 7), (st.hidden, 8), (st.strikethrough, 9), (st.overline, 53)]
  }

  function Select(flags: seq<(bool, nat)>): seq<nat> {
    if flags == [] then [] else If(flags[0].0, flags[0].1) + Select(flags[1..])
  }

  function Numbers(st: Style): (ns: seq<nat>)
    ensures |ns| > 0
  {
    [0] + Select(Flags(st)) + (ColorNumbers(st.fg, 30) + ColorNumbers(st.bg, 40) + UnderlineNumbers(st.underlineColor))
  }

  lemma {:induction false} SelectTo(flags: seq<(bool, nat)>, k: nat)
    requires k < |flags|
    ensures Select(flags[..k + 1]) == Select(flags[..k]) + If(flags[k].0, flags[k].1)
    decreases k
  {
    if k == 0 {
      assert flags[..1][1..] == [];
    } else {
      assert flags[..k + 1][1..] == flags[1..][..k] && flags[..k][1..] == flags[1..][..k - 1];
      SelectTo(flags[1..], k - 1);
    }
  }

  /** Appends the number of attribute `k` if it is set. */
  method AppendAttribute(params: seq<nat>, on: bool, n: nat, ghost flags: seq<(bool, nat)>, ghost k: nat) returns (r: seq<nat>)
    requires k < |flags| && flags[k] == (on, n) && params == [0] + Select(flags[..k])
    ensures r == [0] + Select(flags[..k + 1])
  {
    SelectTo(flags, k);
    r := params;
    if on {
      r := r + [n];
    }
  }

  /** The first half of the attributes, in printing order. */
  method AppendWeights(st: Style) returns (r: seq<nat>)
    ensures r == [0] + Select(Flags(st)[..5])
  {
    hide Select;
    ghost var flags := Flags(st);
    NoneSelected(flags);
    r := [0];
    r := AppendAttribute(r, st.bold, 1, flags, 0);
    r := AppendAttribute(r, st.dim, 2, flags, 1);
    r := AppendAttribute(r, st.italic, 3, flags, 2);
    r := AppendAttribute(r, st.underline, 4, flags, 3);
    r := AppendAttribute(r, st.doubleUnderline, 21, flags, 4);
  }

  /** The second half. */
  method AppendEffects(st: Style, params: seq<nat>) returns (r: seq<nat>)
    requires params == [0] + Select(Flags(st)[..5])
    ensures r == [0] + Select(Flags(st))
  {
    hide Select;
    ghost var flags := Flags(st);
    r := AppendAttribute(params, st.blink, 5, flags, 5);
    r := AppendAttribute(r, st.inverse, 7, flags, 6);
    r := AppendAttribute(r, st.hidden, 8, flags, 7);
    r := AppendAttribute(r, st.strikethrough, 9, flags, 8);
    r := AppendAttribute(r, st.overline, 53, flags, 9);
    assert flags[..10] == flags;
  }

  method SgrParamsString(st: Style) returns (s: string)
    ensures s == Join(Strings(Numbers(st)))
  {
    hide Join, Strings, ColorNumbers, UnderlineNumbers, Select, Flags;
    if st == PLAIN {
      PlainNumbers();
      return "0";
    }
    var params := AppendWeights(st);
    params := AppendEffects(st, params);
    params := params + (ColorNumbers(st.fg, 30) + ColorNumbers(st.bg, 40) + UnderlineNumbers(st.underlineColor));
    return Join(Strings(params));
  }

  lemma NoneSelected(flags: seq<(bool, nat)>)
    ensures [0] + Select(flags[..0]) == [0]
  {}

  lemma PlainNumbers()
    ensures Join(Strings(Numbers(PLAIN))) == "0"
  {}

  lemma {:induction false} SelectNone(flags: seq<(bool, nat)>)
    requires forall i :: 0 <= i < |flags| ==> !flags[i].0
    ensures Select(flags) == []
    decreases |flags|
  {
    if flags != [] { SelectNone(flags[1..]); }
  }

  // ---- the text read back ----

  predicate Digits(s: string) { forall i :: 0 <= i < |s| ==> '0' <= s[i] <= '9' }

  lemma {:induction false} ItoaReadsBack(n: nat)
    ensures Digits(Itoa(n)) && Decimal(Itoa(n)) == n
  {
    if n >= 10 {
      ItoaReadsBack(n / 10);
      assert Itoa(n)[..|Itoa(n)| - 1] == Itoa(n / 10);
    } else {
      assert Itoa(n)[..0] == "";
    }
  }

  lemma {:induction false} SplitWord(t: string, w: string, sep: char)
    requires sep !in w
    ensures Split(t + [sep] + w, sep) == Split(t, sep) + [w]
    decreases |w|
  {
    if w == "" {
      assert t + [sep] + w == t + [sep] && (t + [sep])[..|t|] == t;
    } else {
      var w' := w[..|w| - 1];
      assert (t + [sep] + w)[..|t + [sep] + w| - 1] == t + [sep] + w';
      SplitWord(t, w', sep);
      assert w == w' + [w[|w| - 1]];
    }
  }

  lemma {:induction false} SplitWhole(w: string, sep: char)
    requires sep !in w
    ensures Split(w, sep) == [w]
    decreases |w|
  {
    if w != "" {
      SplitWhole(w[..|w| - 1], sep);
      assert w == w[..|w| - 1] + [w[|w| - 1]];
    }
  }

  function Singles(ns: seq<nat>): (r: seq<seq<nat>>)
    ensures |r| == |ns| && forall i :: 0 <= i < |r| ==> r[i] == [ns[i]]
  {
    seq(|ns|, i requires 0 <= i < |ns| => [ns[i]])
  }

  lemma {:induction false} JoinSplits(ns: seq<nat>)
    requires ns != []
    ensures Split(Join(Strings(ns)), ';') == Strings(ns)
    decreases |ns|
  {
    hide Itoa, Split;
    var last := ns[|ns| - 1];
    ItoaReadsBack(last);
    if |ns| == 1 {
      SplitWhole(Itoa(last), ';');
      assert Strings(ns) == [Itoa(last)];
    } else {
      assert Strings(ns)[..|ns| - 1] == Strings(ns[..|ns| - 1]);
      JoinSplits(ns[..|ns| - 1]);
      SplitWord(Join(Strings(ns[..|ns| - 1])), Itoa(last), ';');
      assert Join(Strings(ns)) == Join(Strings(ns[..|ns| - 1])) + [';'] + Itoa(last);
    }
  }

  /** Printed numbers read back as one group each. */
  lemma PrintedGroups(ns: seq<nat>)
    requires ns != [] && forall n :: n in ns ==> n <= MAX_CSI_ARG_VALUE
    ensures GroupsOf(Join(Strings(ns))) == Singles(ns)
  {
    JoinSplits(ns);
    var gs := GroupsOf(Join(Strings(ns)));
    forall i | 0 <= i < |ns| ensures gs[i] == [ns[i]] {
      assert ns[i] in ns;
      ItoaReadsBack(ns[i]);
      SplitWhole(Itoa(ns[i]), ':');
      assert Values([Itoa(ns[i])]) == [ns[i]];
    }
  }

  lemma {:induction false} FlattenSingles(ns: seq<nat>)
    ensures Flatten(Singles(ns)) == ns
  {
    if ns != [] {
      assert Singles(ns)[1..] == Singles(ns[1..]);
      FlattenSingles(ns[1..]);
    }
  }

  lemma {:induction false} SelectedSize(flags: seq<(bool, nat)>)
    requires forall i :: 0 <= i < |flags| ==> flags[i].1 <= MAX_CSI_ARG_VALUE
    ensures |Select(flags)| <= |flags| && forall n :: n in Select(flags) ==> n <= MAX_CSI_ARG_VALUE
    decreases |flags|
  {
    if flags != [] { SelectedSize(flags[1..]); }
  }

  /** A printed style always fits the parameter slots. */
  lemma PrintedFits(st: Style)
    ensures |Numbers(st)| <= 26 && forall n :: n in Numbers(st) ==> n <= MAX_CSI_ARG_VALUE
  {
    SelectedSize(Flags(st));
    hide Select, Flags;
  }

  /** What the parameter array holds after the printed style, and what the reader sees of it. */
  lemma PrintedIsHeld(st: Style)
    ensures GroupsOf(Join(Strings(Numbers(st)))) == Singles(Numbers(st))
    ensures Clipped(Keep(Singles(Numbers(st)), MAX_PARAMS)) == Singles(Numbers(st))
  {
    var ns := Numbers(st);
    PrintedFits(st);
    hide Numbers, Join, Strings, Split;
    PrintedGroups(ns);
    FlattenSingles(ns);
    KeepAll(Singles(ns), MAX_PARAMS);
    forall i | 0 <= i < |ns| ensures Clipped(Singles(ns))[i] == [ns[i]] { assert [ns[i]][..1] == [ns[i]]; }
  }

  // ---- reading the printed numbers ----

  lemma ApplyOne(n: nat, rest: seq<seq<nat>>, st: Style)
    requires n != 38 && n != 48 && n != 58
    ensures Apply(Singles([n]) + rest, st) == Apply(rest, Attribute([n], st))
  {}

  lemma ApplyIf(b: bool, n: nat, rest: seq<seq<nat>>, st: Style)
    requires n != 38 && n != 48 && n != 58
    ensures Apply(Singles(If(b, n)) + rest, st) == Apply(rest, if b then Attribute([n], st) else st)
  {
    if b { ApplyOne(n, rest, st); } else { assert Singles([]) + rest == rest; }
  }

  lemma SinglesConcat(a: seq<nat>, b: seq<nat>)
    ensures Singles(a + b) == Singles(a) + Singles(b)
  {}

  /** The style after reading the numbers printed for colour `c` of the foreground or the background. */
  function Colored(c: Color, base: nat, st: Style): Style
    requires base == 30 || base == 40
  {
    if c.kind == 1 then Attribute(ColorNumbers(c, base), st)
    else
      var c' := if c.kind == 2 then Indexed(c.val) else Rgb(c.r, c.g, c.b);
      if c.kind == 2 || c.kind == 3 then if base == 30 then st.(fg := c') else st.(bg := c') else st
  }

  lemma ApplyColor(c: Color, base: nat, rest: seq<seq<nat>>, st: Style)
    requires base == 30 || base == 40
    ensures Apply(Singles(ColorNumbers(c, base)) + rest, st) == Apply(rest, Colored(c, base, st))
  {
    var gs := Singles(ColorNumbers(c, base)) + rest;
    if c.kind == 1 {
      ApplyOne(ColorNumbers(c, base)[0], rest, st);
    } else if c.kind == 2 {
      assert gs[..3] == [[base + 8], [5], [c.val as nat]] && gs[3..] == rest;
    } else if c.kind == 3 {
      assert gs[..5] == [[base + 8], [2], [c.r as nat], [c.g as nat], [c.b as nat]] && gs[5..] == rest;
    } else {
      assert gs == rest;
    }
  }

  lemma ApplyUnderline(c: Color, st: Style)
    ensures Apply(Singles(UnderlineNumbers(c)), st) == if c.kind == 2 then st.(underlineColor := Indexed(c.val))
            else if c.kind == 3 then st.(underlineColor := Rgb(c.r, c.g, c.b)) else st
  {}

  function Fold(flags: seq<(bool, nat)>, st: Style): Style {
    if flags == [] then st
    else Fold(flags[1..], if flags[0].0 then Attribute([flags[0].1], st) else st)
  }

  lemma {:induction false} ApplySelected(flags: seq<(bool, nat)>, rest: seq<seq<nat>>, st: Style)
    requires forall i :: 0 <= i < |flags| ==> flags[i].1 != 38 && flags[i].1 != 48 && flags[i].1 != 58
    ensures Apply(Singles(Select(flags)) + rest, st) == Apply(rest, Fold(flags, st))
    decreases |flags|
  {
    hide Attribute, Step, Apply;
    if flags == [] {
      assert Singles([]) + rest == rest;
    } else {
      var f := flags[0];
      var more := Select(flags[1..]);
      SinglesConcat(If(f.0, f.1), more);
      assert Singles(If(f.0, f.1) + more) + rest == Singles(If(f.0, f.1)) + (Singles(more) + rest);
      ApplyIf(f.0, f.1, Singles(more) + rest, st);
      ApplySelected(flags[1..], rest, if f.0 then Attribute([f.1], st) else st);
    }
  }

  /** The printed attributes, read from a reset style. */
  function FlagsOnly(st: Style): Style {
    Style(DEFAULT, DEFAULT, DEFAULT, st.bold, st.dim, st.italic, st.underline && !st.doubleUnderline, st.doubleUnderline,
          st.overline, st.blink, st.inverse, st.strikethrough, st.hidden)
  }

  lemma FlagsRead(st: Style)
    ensures Attribute([1], st) == st.(bold := true) && Attribute([2], st) == st.(dim := true)
    ensures Attribute([3], st) == st.(italic := true) && Attribute([4], st) == st.(underline := true)
    ensures Attribute([21], st) == st.(underline := false, doubleUnderline := true)
    ensures Attribute([5], st) == st.(blink := true) && Attribute([7], st) == st.(inverse := true)
    ensures Attribute([8], st) == st.(hidden := true) && Attribute([9], st) == st.(strikethrough := true)
    ensures Attribute([53], st) == st.(overline := true)
  {}

  lemma FoldNext(flags: seq<(bool, nat)>, k: nat, st: Style)
    requires k < |flags|
    ensures Fold(flags[k..], st) == Fold(flags[k + 1..], if flags[k].0 then Attribute([flags[k].1], st) else st)
  {}

  lemma FoldFlags(st: Style)
    ensures Fold(Flags(st), PLAIN) == FlagsOnly(st)
  {
    hide Attribute, Fold, FlagsOnly, AfterFour, AfterSeven;
    var f := Flags(st);
    assert f[0..] == f && f[10..] == [];
    hide Flags;
    FoldFirst(st);
    FoldMiddle(st);
    FoldLast(st);
    FoldNothing(FlagsOnly(st));
  }

  /** The style after the first four attributes, and after the first seven. */
  function AfterFour(st: Style): Style {
    Style(DEFAULT, DEFAULT, DEFAULT, st.bold, st.dim, st.italic, st.underline, false, false, false, false, false, false)
  }

  function AfterSeven(st: Style): Style {
    Style(DEFAULT, DEFAULT, DEFAULT, st.bold, st.dim, st.italic, st.underline && !st.doubleUnderline, st.doubleUnderline,
          false, st.blink, st.inverse, false, false)
  }

  lemma FoldFirst(st: Style)
    ensures Fold(Flags(st)[0..], PLAIN) == Fold(Flags(st)[4..], AfterFour(st))
  {
    hide Attribute, Fold;
    var f := Flags(st);
    FlagsRead(PLAIN);
    var s1 := PLAIN.(bold := st.bold);
    var s2 := s1.(dim := st.dim);
    var s3 := s2.(italic := st.italic);
    FlagsRead(s1);
    FlagsRead(s2);
    FlagsRead(s3);
    FoldNext(f, 0, PLAIN);
    FoldNext(f, 1, s1);
    FoldNext(f, 2, s2);
    FoldNext(f, 3, s3);
  }

  function AfterFive(st: Style): Style {
    AfterFour(st).(underline := st.underline && !st.doubleUnderline, doubleUnderline := st.doubleUnderline)
  }

  lemma FoldUnderlines(st: Style)
    ensures Fold(Flags(st)[4..], AfterFour(st)) == Fold(Flags(st)[5..], AfterFive(st))
  {
    hide Attribute, Fold;
    FlagsRead(AfterFour(st));
    FoldNext(Flags(st), 4, AfterFour(st));
  }

  lemma SetsMiddle(s: Style, b: bool)
    ensures !s.blink ==> (if b then Attribute([5], s) else s) == s.(blink := b)
    ensures !s.inverse ==> (if b then Attribute([7], s) else s) == s.(inverse := b)
  {
    FlagsRead(s);
  }

  lemma FoldMiddle(st: Style)
    ensures Fold(Flags(st)[4..], AfterFour(st)) == Fold(Flags(st)[7..], AfterSeven(st))
  {
    hide Attribute, Fold;
    var f := Flags(st);
    var s6 := AfterFive(st).(blink := st.blink);
    FoldUnderlines(st);
    SetsMiddle(AfterFive(st), st.blink);
    SetsMiddle(s6, st.inverse);
    FoldNext(f, 5, AfterFive(st));
    FoldNext(f, 6, s6);
  }

  lemma SetsLast(s: Style, b: bool)
    ensures !s.hidden ==> (if b then Attribute([8], s) else s) == s.(hidden := b)
    ensures !s.strikethrough ==> (if b then Attribute([9], s) else s) == s.(strikethrough := b)
    ensures !s.overline ==> (if b then Attribute([53], s) else s) == s.(overline := b)
  {
    FlagsRead(s);
  }

  lemma FoldLast(st: Style)
    ensures Fold(Flags(st)[7..], AfterSeven(st)) == Fold(Flags(st)[10..], FlagsOnly(st))
  {
    hide Attribute, Fold;
    var f := Flags(st);
    var s7 := AfterSeven(st);
    var s8 := s7.(hidden := st.hidden);
    var s9 := s8.(strikethrough := st.strikethrough);
    SetsLast(s7, st.hidden);
    SetsLast(s8, st.strikethrough);
    SetsLast(s9, st.overline);
    FoldNext(f, 7, s7);
    FoldNext(f, 8, s8);
    FoldNext(f, 9, s9);
  }

  lemma FoldNothing(st: Style)
    ensures Fold([], st) == st
  {}

  /** What reading the printed style gives, from any prior pen. */
  lemma PrintedReadsAs(st: Style, pen: Style)
    ensures var bare := Colored(st.bg, 40, Colored(st.fg, 30, FlagsOnly(st)));
            var c := st.underlineColor;
            Apply(Singles(Numbers(st)), pen) == if c.kind == 2 then bare.(underlineColor := Indexed(c.val))
            else if c.kind == 3 then bare.(underlineColor := Rgb(c.r, c.g, c.b)) else bare
  {
    hide Attribute, Step, Apply, Select, Flags, ColorNumbers, UnderlineNumbers, Colored, FlagsOnly;
    var flags, fg, bg, ul := Select(Flags(st)), ColorNumbers(st.fg, 30), ColorNumbers(st.bg, 40), UnderlineNumbers(st.underlineColor);
    PrintedInParts(flags, fg, bg, ul);
    ApplyOne(0, Singles(flags) + (Singles(fg) + (Singles(bg) + Singles(ul))), pen);
    ZeroResets(pen);
    FoldFlags(st);
    FlagsAreSimple(st);
    ApplySelected(Flags(st), Singles(fg) + (Singles(bg) + Singles(ul)), PLAIN);
    ApplyColor(st.fg, 30, Singles(bg) + Singles(ul), FlagsOnly(st));
    ApplyColor(st.bg, 40, Singles(ul), Colored(st.fg, 30, FlagsOnly(st)));
    ApplyUnderline(st.underlineColor, Colored(st.bg, 40, Colored(st.fg, 30, FlagsOnly(st))));
  }

  lemma PrintedInParts(flags: seq<nat>, fg: seq<nat>, bg: seq<nat>, ul: seq<nat>)
    ensures Singles([0] + flags + (fg + bg + ul)) == Singles([0]) + (Singles(flags) + (Singles(fg) + (Singles(bg) + Singles(ul))))
  {}

  lemma ZeroResets(pen: Style)
    ensures Attribute([0], pen) == PLAIN
  {}

  lemma FlagsAreSimple(st: Style)
    ensures forall i :: 0 <= i < |Flags(st)| ==> Flags(st)[i].1 != 38 && Flags(st)[i].1 != 48 && Flags(st)[i].1 != 58
  {}

  // ---- the round trip ----

  predicate ColorOk(c: Color) {
    c == DEFAULT || (c == Basic(c.val) && c.val < 16) || c == Indexed(c.val) || c == Rgb(c.r, c.g, c.b)
  }

  /** The styles that print faithfully: the unused parts of each colour are zero, the underline colour is
      not one of the basic sixteen, and at most one kind of underline is on. */
  predicate Canonical(st: Style) {
    ColorOk(st.fg) && ColorOk(st.bg) && ColorOk(st.underlineColor) && st.underlineColor.kind != 1
    && !(st.underline && st.doubleUnderline)
  }

  /** Numbers of 30 and more but not 53 and 55 are colours. */
  lemma ColorRead(n: nat, st: Style)
    requires n >= 30 && n != 53 && n != 55
    ensures Attribute([n], st) == ColorAttribute(n, st)
  {}

  /** The foreground's numbers below 16, and those past it, which read as a background or as nothing. */
  lemma ForegroundRead(v: Byte, st: Style)
    ensures v < 8 ==> Attribute([30 + v], st) == st.(fg := Basic(v))
    ensures 8 <= v < 16 ==> Attribute([30 + 60 + v - 8], st) == st.(fg := Basic(v))
    ensures v >= 16 ==> exists c :: Attribute([30 + 60 + v - 8], st) == st.(bg := c)
  {
    hide Attribute;
    var n := if v < 8 then 30 + v else 30 + 60 + v - 8;
    ColorRead(n, st);
    if v >= 16 {
      BackgroundOrNothing(n, st);
    }
  }

  lemma BackgroundOrNothing(n: nat, st: Style)
    requires n >= 98
    ensures exists c :: ColorAttribute(n, st) == st.(bg := c)
  {}

  /** Reading a printed foreground colour, in the two cases of a basic colour. */
  lemma ForegroundBasic(c: Color, st: Style)
    requires c.kind == 1
    ensures c.val < 16 ==> Colored(c, 30, st) == st.(fg := Basic(c.val))
    ensures c.val >= 16 ==> Colored(c, 30, st) == st.(bg := Colored(c, 30, st).bg)
  {
    ForegroundRead(c.val, st);
    hide Attribute;
    assert c.val < 8 ==> ColorNumbers(c, 30) == [30 + c.val];
    assert c.val >= 8 ==> ColorNumbers(c, 30) == [30 + 60 + c.val - 8];
  }

  lemma ForegroundOnly(c: Color, st: Style)
    requires st.fg == DEFAULT
    ensures Colored(c, 30, st) == st.(fg := Colored(c, 30, st).fg, bg := Colored(c, 30, st).bg)
    ensures Colored(c, 30, st).fg == c <==> ColorOk(c)
    ensures ColorOk(c) ==> Colored(c, 30, st).bg == st.bg
  {
    hide Attribute, ColorNumbers;
    if c.kind == 1 {
      ForegroundBasic(c, st);
      hide Colored;
    }
  }

  /** The colour that the numbers printed for `c` read back as. */
  function ReadBack(c: Color): Color {
    if c.kind == 1 && c.val < 16 then Basic(c.val)
    else if c.kind == 2 then Indexed(c.val)
    else if c.kind == 3 then Rgb(c.r, c.g, c.b)
    else DEFAULT
  }

  lemma ColorOkIff(c: Color)
    ensures ColorOk(c) <==> ReadBack(c) == c
  {}

  lemma BackgroundBasic(c: Color, st: Style)
    requires c.kind == 1
    ensures Colored(c, 40, st) == st.(bg := if c.val < 16 then Basic(c.val) else st.bg)
  {}

  lemma BackgroundOnly(c: Color, st: Style)
    ensures Colored(c, 40, st) == st.(bg := Colored(c, 40, st).bg)
    ensures st.bg == DEFAULT ==> (Colored(c, 40, st).bg == c <==> ColorOk(c))
  {
    hide Colored, ColorOk;
    ColorOkIff(c);
    if c.kind == 1 {
      BackgroundBasic(c, st);
    } else {
      BackgroundExtended(c, st);
    }
  }

  lemma BackgroundExtended(c: Color, st: Style)
    requires c.kind != 1
    ensures Colored(c, 40, st) == st.(bg := if c.kind == 2 then Indexed(c.val) else if c.kind == 3 then Rgb(c.r, c.g, c.b) else st.bg)
  {}

  /** The round trip holds exactly for the canonical styles, whatever the pen was before. */
  lemma SgrRoundTripIff(st: Style, pen: Style)
    ensures Apply(Singles(Numbers(st)), pen) == st <==> Canonical(st)
  {
    PrintedReadsAs(st, pen);
    hide Apply, Numbers, Colored;
    var flagged := FlagsOnly(st);
    var s1 := Colored(st.fg, 30, flagged);
    ForegroundOnly(st.fg, flagged);
    BackgroundOnly(st.bg, s1);
  }
}
