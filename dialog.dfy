/**
 * The two pieces of text both notification scripts are built from: the
 * dialog message and the icon clause.
 */
module Dialog {
  import opened Wrappers
  import opened Text

  /** The seven line breaks that pad every dialog message. */
  const PADDING: string := "\n\n\n\n\n\n\n"

  /** The dialog message: `title + " - " + type.message()` and seven line breaks. */
  function Message(title: string, typeMessage: string): (m: string)
    ensures |m| == |title| + 3 + |typeMessage| + |PADDING|
    ensures OccursAt(m, PADDING, |m| - |PADDING|)
  {
    assert (title + " - " + typeMessage + PADDING)[|title| + 3 + |typeMessage|..] == PADDING;
    title + " - " + typeMessage + PADDING
  }

  /**
   * The message ends with seven more line breaks than the type's message
   * text does: the " - " separator stops the count from reaching the title.
   */
  lemma MessageTrailingNewlines(title: string, typeMessage: string)
    ensures TrailingNewlines(Message(title, typeMessage)) == 7 + TrailingNewlines(typeMessage)
  {
    var sep := title + " - ";
    assert sep[|sep| - 1] == ' ';
    assert TrailingNewlines(sep) == 0;
    TrailingNewlinesOfNewlines(PADDING);
    TrailingNewlinesConcat(sep, typeMessage);
    assert Message(title, typeMessage) == (sep + typeMessage) + PADDING;
    TrailingNewlinesConcat(sep + typeMessage, PADDING);
  }

  /**
   * The message starts with the title followed by " - " and the type's text,
   * and when that text does not itself end in a line break the message ends
   * in exactly seven.
   */
  lemma MessageShape(title: string, typeMessage: string)
    ensures OccursAt(Message(title, typeMessage), title, 0)
    ensures OccursAt(Message(title, typeMessage), " - ", |title|)
    ensures OccursAt(Message(title, typeMessage), typeMessage, |title| + 3)
    ensures |Message(title, typeMessage)| == |title| + 3 + |typeMessage| + 7
    ensures (typeMessage == [] || typeMessage[|typeMessage| - 1] != '\n') ==>
              TrailingNewlines(Message(title, typeMessage)) == 7
  {
    var m := Message(title, typeMessage);
    assert m[..|title|] == title;
    assert m[|title|..|title| + 3] == " - ";
    assert m[|title| + 3..|title| + 3 + |typeMessage|] == typeMessage;
    MessageTrailingNewlines(title, typeMessage);
  }

  const POSIX_ICON_PREFIX: string := "with icon POSIX file \""
  const CAUTION_ICON: string := "with icon caution"

  /** The icon clause: the resolved icon file when there is one, the caution icon otherwise. */
  function IconLine(iconPath: Option<string>): (line: string)
    ensures line == CAUTION_ICON <==> iconPath.None?
  {
    match iconPath
    case Some(path) =>
      assert |POSIX_ICON_PREFIX + path + "\""| != |CAUTION_ICON|;
      POSIX_ICON_PREFIX + path + "\""
    case None => CAUTION_ICON
  }

  /** Reads back which icon an icon clause names; None for text that is not an icon clause. */
  function ParseIconLine(line: string): Option<Option<string>> {
    if line == CAUTION_ICON then Some(None)
    else if |line| > |POSIX_ICON_PREFIX| && line[..|POSIX_ICON_PREFIX|] == POSIX_ICON_PREFIX
            && line[|line| - 1] == '"'
    then Some(Some(line[|POSIX_ICON_PREFIX|..|line| - 1]))
    else None
  }

  /** The icon clause names its icon unambiguously: it can always be read back. */
  lemma IconLineRoundTrip(iconPath: Option<string>)
    ensures ParseIconLine(IconLine(iconPath)) == Some(iconPath)
  {
    match iconPath
    case None =>
    case Some(path) =>
      var line := IconLine(iconPath);
      assert |line| == |POSIX_ICON_PREFIX| + |path| + 1;
      assert line != CAUTION_ICON by { assert |line| != |CAUTION_ICON|; }
      assert line[..|POSIX_ICON_PREFIX|] == POSIX_ICON_PREFIX;
      assert line[|POSIX_ICON_PREFIX|..|line| - 1] == path;
  }

  /** Different icon choices give different icon clauses. */
  lemma IconLineInjective(a: Option<string>, b: Option<string>)
    ensures IconLine(a) == IconLine(b) <==> a == b
  {
    IconLineRoundTrip(a);
    IconLineRoundTrip(b);
  }

  /** Every text that reads back as an icon clause is the clause for the choice it reads as. */
  lemma ParseIconLineSound(line: string)
    ensures ParseIconLine(line).Some? ==> IconLine(ParseIconLine(line).value) == line
  {
    if ParseIconLine(line).Some? && ParseIconLine(line).value.Some? {
      var path := ParseIconLine(line).value.value;
      assert line == line[..|POSIX_ICON_PREFIX|] + line[|POSIX_ICON_PREFIX|..|line| - 1] + [line[|line| - 1]];
    }
  }
}
