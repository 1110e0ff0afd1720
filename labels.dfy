/**
 * `update_checkbox_style`: a check box shows its label behind a check mark
 * or a cross, and is coloured by its state.
 */
module Labels {
  import opened Text

  /** The two markers `update_checkbox_style` deletes from a label. */
  const CheckMarker: string := "✓ "
  const CrossMarker: string := "✗ "

  /** What a label is shown behind: the marker and one more space. */
  const CheckedPrefix: string := "✓  "
  const UncheckedPrefix: string := "✗  "

  const CheckedStyle: string := "color: #4caf50; font-weight: bold;"
  const UncheckedStyle: string := "color: #808080;"

  function Prefix(checked: bool): string {
    if checked then CheckedPrefix else UncheckedPrefix
  }

  /** The label without its markers: every "✓ " is deleted, then every "✗ ",
      then the surrounding whitespace. */
  function BaseLabel(text: string): (b: string)
    ensures Trimmed(b)
    ensures |b| <= |text|
    ensures forall c | c in b :: c in text
  {
    Strip(RemoveAll(RemoveAll(text, CheckMarker), CrossMarker))
  }

  /** The new text of the box. */
  function StyledLabel(text: string, checked: bool): (r: string)
    ensures |r| >= 3
    ensures r[..3] == CheckedPrefix <==> checked
    ensures r[..3] == UncheckedPrefix <==> !checked
    ensures r[3..] == BaseLabel(text)
  {
    Prefix(checked) + BaseLabel(text)
  }

  /** The new style sheet of the box. */
  function StyleSheet(checked: bool): (s: string)
    ensures s == CheckedStyle <==> checked
  {
    if checked then CheckedStyle else UncheckedStyle
  }

  /** Neither marker occurs in `b`. */
  predicate NoMarker(b: string) {
    Free(b, CheckMarker) && Free(b, CrossMarker)
  }

  /** A string without the character `c` holds no pattern starting with it. */
  lemma FreeOfMissingHead(s: string, pat: string)
    requires pat != [] && pat[0] !in s
    ensures Free(s, pat)
  {
    forall i: nat | i + |pat| <= |s| ensures !OccursAt(s, pat, i) {
      assert s[i..i + |pat|][0] == s[i];
    }
  }

  /** A label written without mark characters, as every label of the window
      is, keeps all of its text apart from surrounding whitespace, and what
      is left holds no marker. */
  lemma PlainLabel(text: string)
    requires '✓' !in text && '✗' !in text
    ensures BaseLabel(text) == Strip(text)
    ensures NoMarker(BaseLabel(text))
  {
    FreeOfMissingHead(text, CheckMarker);
    FreeOfMissingHead(text, CrossMarker);
    var b := BaseLabel(text);
    FreeOfMissingHead(b, CheckMarker);
    FreeOfMissingHead(b, CrossMarker);
  }

  /** Behind one space, a label without markers passes both deletions
      unchanged. */
  lemma {:induction false} SpacedUnchanged(b: string)
    requires NoMarker(b)
    ensures RemoveAll(RemoveAll(" " + b, CheckMarker), CrossMarker) == " " + b
  {
    RemoveAllAfter(' ', b, CheckMarker);
    RemoveAllAfter(' ', b, CrossMarker);
  }

  /** The markers and the padding of a styled label are all that is taken
      off again. */
  lemma {:induction false} BaseOfPrefixed(b: string, checked: bool)
    requires NoMarker(b) && Trimmed(b)
    ensures BaseLabel(Prefix(checked) + b) == b
  {
    if checked {
      CheckedMarkersGone(b);
    } else {
      CrossMarkersGone(b);
    }
    StripAfterSpace(' ', b);
    StripOfTrimmed(b);
  }

  /** The deletions leave the padding of a checked label: its marker goes,
      one space stays. */
  lemma {:induction false} CheckedMarkersGone(b: string)
    requires NoMarker(b)
    ensures RemoveAll(RemoveAll(CheckedPrefix + b, CheckMarker), CrossMarker) == " " + b
  {
    PrefixParts('✓', b);
    RemoveAllLeading(" " + b, CheckMarker);
    SpacedUnchanged(b);
  }

  /** The same for an unchecked label, whose cross the first deletion passes
      over. */
  lemma {:induction false} CrossMarkersGone(b: string)
    requires NoMarker(b)
    ensures RemoveAll(RemoveAll(UncheckedPrefix + b, CheckMarker), CrossMarker) == " " + b
  {
    var sb := " " + b;
    PrefixParts('✗', b);
    RemoveAllAfter('✗', " " + sb, CheckMarker);
    RemoveAllAfter(' ', sb, CheckMarker);
    RemoveAllAfter(' ', b, CheckMarker);
    RemoveAllLeading(sb, CrossMarker);
    RemoveAllAfter(' ', b, CrossMarker);
  }

  /** A marker character and two spaces in front of `b`, grouped three ways. */
  lemma PrefixParts(c: char, b: string)
    ensures [c, ' ', ' '] + b == [c] + (" " + (" " + b))
    ensures [c, ' ', ' '] + b == [c, ' '] + (" " + b)
  {
    assert [c, ' ', ' '] + b == [c] + [' '] + [' '] + b;
  }

  /** Restyling keeps the base label, as long as that label holds no marker
      of its own. */
  lemma {:induction false} BasePreserved(text: string, checked: bool)
    requires NoMarker(BaseLabel(text))
    ensures BaseLabel(StyledLabel(text, checked)) == BaseLabel(text)
  {
    BaseOfPrefixed(BaseLabel(text), checked);
  }

  /** Toggling: restyling a styled label gives the label styled for the new
      state directly. */
  lemma {:induction false} RestyleToggles(text: string, first: bool, second: bool)
    requires NoMarker(BaseLabel(text))
    ensures StyledLabel(StyledLabel(text, first), second) == StyledLabel(text, second)
  {
    BasePreserved(text, first);
  }

  /** Restyling with an unchanged state changes nothing. */
  lemma {:induction false} RestyleIdempotent(text: string, checked: bool)
    requires NoMarker(BaseLabel(text))
    ensures StyledLabel(StyledLabel(text, checked), checked) == StyledLabel(text, checked)
  {
    RestyleToggles(text, checked, checked);
  }

  /** Without the no-marker condition restyling is not idempotent: the single
      left-to-right pass of `replace` leaves a "✓ " that appears only once
      its neighbour is gone. */
  lemma RestyleNotIdempotent()
    ensures StyledLabel("✓✓  x", true) == "✓  ✓ x"
    ensures StyledLabel(StyledLabel("✓✓  x", true), true) == "✓  x"
  {
    FirstStyled();
    SecondStyled();
  }

  lemma FirstStyled()
    ensures StyledLabel("✓✓  x", true) == "✓  ✓ x"
  {
    FirstRestyle();
    LabelLiterals();
  }

  lemma SecondStyled()
    ensures StyledLabel("✓  ✓ x", true) == "✓  x"
  {
    SecondRestyle();
    LabelLiterals();
  }

  lemma LabelLiterals()
    ensures CheckedPrefix + "✓ x" == "✓  ✓ x"
    ensures CheckedPrefix + "x" == "✓  x"
    ensures "✓  ✓ x" == CheckMarker + ([' '] + (CheckMarker + "x"))
    ensures "✓✓  x" == ['✓'] + (CheckMarker + " x")
    ensures [' '] + "x" == " x" && CheckMarker + "x" == "✓ x"
  {
  }

  /** A check mark in front of a marker is not itself a marker: the scan
      keeps it and goes on at the next one. */
  lemma DoubleCheck(s: string)
    ensures RemoveAll(['✓'] + (CheckMarker + s), CheckMarker) == ['✓'] + RemoveAll(CheckMarker + s, CheckMarker)
  {
    var t := ['✓'] + (CheckMarker + s);
    assert t[..2][1] == '✓';
    assert t[1..] == CheckMarker + s;
  }

  lemma FirstRestyle()
    ensures BaseLabel("✓✓  x") == "✓ x"
  {
    FirstScan();
    FreeOfMissingHead("✓ x", CrossMarker);
    StripOfTrimmed("✓ x");
  }

  lemma FirstScan()
    ensures RemoveAll("✓✓  x", CheckMarker) == "✓ x"
  {
    LabelLiterals();
    DoubleCheck(" x");
    RemoveAllLeading(" x", CheckMarker);
    FreeOfMissingHead(" x", CheckMarker);
  }

  lemma SecondRestyle()
    ensures BaseLabel("✓  ✓ x") == "x"
  {
    SecondScan();
    SecondCleared();
  }

  lemma SecondCleared()
    ensures Strip(RemoveAll(" x", CrossMarker)) == "x"
  {
    FreeOfMissingHead(" x", CrossMarker);
    StripSpaced('x');
  }

  lemma StripSpaced(c: char)
    requires !IsSpace(c)
    ensures Strip([' ', c]) == [c]
  {
    assert [' '] + [c] == [' ', c];
    StripAfterSpace(' ', [c]);
    StripOfTrimmed([c]);
  }

  lemma SecondScan()
    ensures RemoveAll("✓  ✓ x", CheckMarker) == " x"
  {
    LabelLiterals();
    RemoveAllLeading([' '] + (CheckMarker + "x"), CheckMarker);
    RemoveAllAfter(' ', CheckMarker + "x", CheckMarker);
    RemoveAllLeading("x", CheckMarker);
    FreeOfMissingHead("x", CheckMarker);
  }

  /** A check box of the window: its text, its state and its style sheet. */
  class Checkbox {
    var text: string
    var checked: bool
    var styleSheet: string

    constructor(text: string, checked: bool)
      ensures this.text == text && this.checked == checked && styleSheet == ""
    {
      this.text := text;
      this.checked := checked;
      styleSheet := "";
    }

    /** `update_checkbox_style(checkbox)`: the text is rewritten for the
        current state and the matching style sheet is set; the state is
        left alone. */
    method UpdateStyle()
      modifies this
      ensures text == StyledLabel(old(text), checked)
      ensures styleSheet == StyleSheet(checked)
      ensures checked == old(checked)
    {
      var base := RemoveAll(RemoveAll(text, CheckMarker), CrossMarker);
      base := Strip(base);
      if checked {
        text := CheckedPrefix + base;
        styleSheet := CheckedStyle;
      } else {
        text := UncheckedPrefix + base;
        styleSheet := UncheckedStyle;
      }
    }
  }
}
