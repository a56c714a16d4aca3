/**
 * The avatar fallback of the user menu: the initials of the display name.
 */
module UserNav {
  import opened Wrappers
  import opened Js

  /**
   * `getInitials(name)`: `"U"` for a missing or empty name, otherwise the
   * first characters of the first two pieces of `name.split(' ')`, where an
   * empty piece prints as `undefined`; a name without a space gives its first
   * character.
   */
  function GetInitials(name: Option<string>): (r: string)
    ensures name.None? || name.value == "" ==> r == "U"
    ensures name.Some? && name.value != "" && ' ' !in name.value ==> r == [name.value[0]]
  {
    if name.None? || name.value == "" then "U"
    else
      var names := Split(name.value, ' ');
      if |names| > 1 then TemplateText(CharAt(names[0], 0)) + TemplateText(CharAt(names[1], 0))
      else
        assert names == [name.value];
        [names[0][0]]
  }

  /** The pieces of `a + " " + b + tail`, when neither word holds a space and `tail` is empty or starts one. */
  lemma {:induction false} FirstTwoPieces(a: string, b: string, tail: string)
    requires ' ' !in a && ' ' !in b
    requires tail == "" || tail[0] == ' '
    ensures var names := Split(a + " " + b + tail, ' ');
      |names| > 1 && names[0] == a && names[1] == b
  {
    var rest := b + tail;
    assert a + " " + b + tail == a + [' '] + rest;
    SplitAfterHead(a, ' ', rest);
    var names := [a] + Split(rest, ' ');
    assert names[0] == a && names[1] == Split(rest, ' ')[0];
    RestStartsWithWord(b, tail);
  }

  /** `b + tail` splits with `b` first, when `tail` is empty or starts with a space. */
  lemma RestStartsWithWord(b: string, tail: string)
    requires ' ' !in b
    requires tail == "" || tail[0] == ' '
    ensures Split(b + tail, ' ')[0] == b
  {
    if tail == "" {
      assert b + tail == b;
    } else {
      assert b + tail == b + [' '] + tail[1..];
      SplitAfterHead(b, ' ', tail[1..]);
    }
  }

  /** Two non-empty words give their first letters; later words are ignored. */
  lemma TwoWordInitials(a: string, b: string, tail: string)
    requires a != "" && b != "" && ' ' !in a && ' ' !in b
    requires tail == "" || tail[0] == ' '
    ensures GetInitials(Some(a + " " + b + tail)) == [a[0], b[0]]
  {
    FirstTwoPieces(a, b, tail);
  }

  /** A leading space makes the first piece empty, which prints as `undefined`. */
  lemma LeadingSpaceInitials(b: string)
    requires b != "" && ' ' !in b
    ensures GetInitials(Some(" " + b)) == "undefined" + [b[0]]
  {
    FirstTwoPieces("", b, "");
    assert "" + " " + b + "" == " " + b;
  }

  /** A trailing space makes the second piece empty, which prints as `undefined`. */
  lemma TrailingSpaceInitials(a: string)
    requires a != "" && ' ' !in a
    ensures GetInitials(Some(a + " ")) == [a[0]] + "undefined"
  {
    FirstTwoPieces(a, "", "");
    assert a + " " + "" + "" == a + " ";
  }

  /** A double space between two words makes the second piece empty. */
  lemma DoubleSpaceInitials(a: string, b: string)
    requires a != "" && ' ' !in a && ' ' !in b
    ensures GetInitials(Some(a + "  " + b)) == [a[0]] + "undefined"
  {
    FirstTwoPieces(a, "", " " + b);
    assert a + " " + "" + (" " + b) == a + "  " + b;
  }
}
