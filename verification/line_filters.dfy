/**
 * The two Django template filters that turn a block of plain text into HTML,
 * one element per non-blank line: linebreaks_to_list_items wraps each line in
 * <li>...</li>, linebreaks_to_bulleted_text in a bullet paragraph. Both share
 * the same shape, modelled once here as WrapLines.
 */
module LineFilters {
  import opened Wrappers
  import opened PyText

  /** A line counts when it holds something besides whitespace. */
  predicate IsBlank(line: string) {
    Strip(line) == ""
  }

  /** The stripped contents of the non-blank lines, in order. */
  function Kept(lines: seq<string>): (kept: seq<string>)
    ensures |kept| <= |lines|
    ensures forall j :: 0 <= j < |kept| ==> kept[j] != "" && Trimmed(kept[j])
  {
    if lines == [] then []
    else if IsBlank(lines[0]) then Kept(lines[1..])
    else [Strip(lines[0])] + Kept(lines[1..])
  }

  /** x is the stripped form of one of the lines. */
  predicate StrippedLine(x: string, lines: seq<string>) {
    exists i :: 0 <= i < |lines| && x == Strip(lines[i])
  }

  /** A line of the rest is a line of the whole. */
  lemma StrippedLineShift(x: string, lines: seq<string>)
    requires lines != [] && StrippedLine(x, lines[1..])
    ensures StrippedLine(x, lines)
  {
    var i :| 0 <= i < |lines| - 1 && x == Strip(lines[1..][i]);
    assert lines[1..][i] == lines[i + 1];
  }

  /** Every kept entry is the stripped form of some line of the input. */
  lemma {:induction false} KeptFromLines(lines: seq<string>)
    ensures forall j :: 0 <= j < |Kept(lines)| ==> StrippedLine(Kept(lines)[j], lines)
  {
    if lines != [] {
      var rest := lines[1..];
      KeptFromLines(rest);
      var kept, tail := Kept(lines), Kept(rest);
      var k := if IsBlank(lines[0]) then 0 else 1;
      assert kept[k..] == tail;
      forall j | 0 <= j < |kept|
        ensures StrippedLine(kept[j], lines)
      {
        if j < k {
          assert kept[j] == Strip(lines[0]);
        } else {
          assert kept[j] == tail[j - k];
          StrippedLineShift(kept[j], lines);
        }
      }
    }
  }

  /** Nothing is kept exactly when every line is blank. */
  lemma {:induction false} KeptEmpty(lines: seq<string>)
    ensures Kept(lines) == [] <==> forall i :: 0 <= i < |lines| ==> IsBlank(lines[i])
  {
    if lines != [] {
      var rest := lines[1..];
      KeptEmpty(rest);
      if IsBlank(lines[0]) {
        assert Kept(lines) == Kept(rest);
        forall i | 0 <= i < |rest|
          ensures rest[i] == lines[i + 1]
        {
        }
      } else {
        assert Kept(lines)[0] == Strip(lines[0]);
      }
    }
  }

  /** Each kept line between the element's opening and closing markup. */
  function Wrapped(kept: seq<string>, prefix: string, suffix: string): (items: seq<string>)
    ensures |items| == |kept|
    ensures forall j :: 0 <= j < |items| ==> items[j] == prefix + kept[j] + suffix
  {
    seq(|kept|, j requires 0 <= j < |kept| => prefix + kept[j] + suffix)
  }

  /**
   * The filter body: a missing or empty value gives the empty string; otherwise
   * the wrapped non-blank lines of the value joined with newlines.
   */
  function WrapLines(value: Option<string>, prefix: string, suffix: string): (html: string)
    ensures value == None || value == Some("") ==> html == ""
  {
    match value
    case None => ""
    case Some(text) =>
      if text == "" then "" else Join(Wrapped(Kept(SplitLines(text)), prefix, suffix), "\n")
  }

  /** A line of the value never reaches the output with a line break inside it. */
  lemma KeptHasNoNewline(lines: seq<string>)
    requires forall i :: 0 <= i < |lines| ==> NoLineBreak(lines[i])
    ensures forall j :: 0 <= j < |Kept(lines)| ==> '\n' !in Kept(lines)[j]
  {
    var kept := Kept(lines);
    KeptFromLines(lines);
    forall j | 0 <= j < |kept|
      ensures '\n' !in kept[j]
    {
      assert StrippedLine(kept[j], lines);
      var i :| 0 <= i < |lines| && kept[j] == Strip(lines[i]);
    }
  }

  /**
   * Reading the output back line by line gives exactly one wrapped element per
   * non-blank line of the value, in order; the output is empty exactly when
   * every line is blank.
   */
  lemma {:induction false} WrapLinesLines(text: string, prefix: string, suffix: string)
    requires text != ""
    requires '\n' !in prefix && '\n' !in suffix
    ensures var html := WrapLines(Some(text), prefix, suffix);
      var kept := Kept(SplitLines(text));
      (html == "" <==> kept == []) &&
      (kept != [] ==> SplitOn(html, '\n') == Wrapped(kept, prefix, suffix))
  {
    var kept := Kept(SplitLines(text));
    var items := Wrapped(kept, prefix, suffix);
    KeptHasNoNewline(SplitLines(text));
    KeptEmpty(SplitLines(text));
    if kept != [] {
      forall j | 0 <= j < |items|
        ensures '\n' !in items[j]
      {
        assert items[j] == prefix + kept[j] + suffix;
      }
      SplitOnJoin(items, '\n');
      assert items[0] == prefix + kept[0] + suffix;
      JoinNonEmpty(items);
    }
  }

  lemma JoinNonEmpty(items: seq<string>)
    requires items != [] && items[0] != ""
    ensures Join(items, "\n") != ""
  {
  }
}

/** cam_igcse/custom_filters.py: linebreaks_to_list_items. */
module ListItemFilter {
  import opened Wrappers
  import opened PyText
  import opened LineFilters

  const Open: string := "<li>"
  const Close: string := "</li>"

  /** One <li> element per non-blank line, stripped, separated by newlines. */
  function LinebreaksToListItems(value: Option<string>): (html: string)
    ensures value == None || value == Some("") ==> html == ""
    ensures value.Some? && value.value != "" ==>
      var kept := Kept(SplitLines(value.value));
      (html == "" <==> kept == []) &&
      (kept != [] ==> SplitOn(html, '\n') == Wrapped(kept, Open, Close))
  {
    if value.Some? && value.value != "" then
      WrapLinesLines(value.value, Open, Close);
      WrapLines(value, Open, Close)
    else WrapLines(value, Open, Close)
  }
}

/** cam_igcse/templatetags/custom_filters.py: linebreaks_to_bulleted_text. */
module BulletFilter {
  import opened Wrappers
  import opened PyText
  import opened LineFilters

  const Open: string := "<p class=\"pl-4 text-sm\">\U{2022}&nbsp;"
  const Close: string := "</p>"

  /** One bullet paragraph per non-blank line, stripped, separated by newlines. */
  function LinebreaksToBulletedText(value: Option<string>): (html: string)
    ensures value == None || value == Some("") ==> html == ""
    ensures value.Some? && value.value != "" ==>
      var kept := Kept(SplitLines(value.value));
      (html == "" <==> kept == []) &&
      (kept != [] ==> SplitOn(html, '\n') == Wrapped(kept, Open, Close))
  {
    if value.Some? && value.value != "" then
      WrapLinesLines(value.value, Open, Close);
      WrapLines(value, Open, Close)
    else WrapLines(value, Open, Close)
  }
}
