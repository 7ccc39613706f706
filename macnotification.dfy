/**
 * MacNotificationHandler: turns an alert into the AppleScript that shows the
 * "Meeting Alert" dialog, using the cached application icon when there is one.
 */
module MacNotification {
  import opened Wrappers
  import opened Alerts
  import opened Text
  import opened Dialog
  import opened IconCache

  /** The script up to the opening quote of the dialog text, line by line as the template has it. */
  const SCRIPT_HEAD: string :=
    "set x to output volume of (get volume settings)\n" +
    "try\n" +
    "    set volume output volume 80\n" +
    "    do shell script \"afplay /System/Library/Sounds/Glass.aiff\"\n" +
    "end try\n" +
    "set volume output volume x\n" +
    "\n" +
    "tell application \"System Events\"\n" +
    "    set frontmost of process \"Finder\" to true\n" +
    "end tell\n" +
    "\n" +
    "tell application \"Finder\"\n" +
    "    activate\n" +
    "    set myDialog to display dialog \""

  /** After the icon clause: the end of the dialog and the calendar link for "Open Calendar". */
  const SCRIPT_TAIL: string :=
    "\n" +
    "end tell\n" +
    "\n" +
    "if button returned of myDialog is \"Open Calendar\" then\n" +
    "    open location \"https://calendar.google.com\"\n" +
    "end if\n"

  const DIALOG_TITLE: string := "with title \"Meeting Alert\""
  const DIALOG_BUTTONS: string := "buttons {\"Dismiss\", \"Open Calendar\"}"
  const DEFAULT_BUTTON: string := "default button \"Open Calendar\""

  /** An AppleScript line continuation (\U{00AC}) and the indentation of the next dialog option. */
  const CONTINUED: string := " \U{00AC}\n        "

  /** From the closing quote of the dialog text to where the icon clause goes. */
  const SCRIPT_DIALOG: string :=
    "\"" + CONTINUED + DIALOG_TITLE + CONTINUED + DIALOG_BUTTONS + CONTINUED + DEFAULT_BUTTON + CONTINUED

  /**
   * getScript: the template with the alert's message and then the icon
   * clause substituted, each verbatim (nothing is escaped).
   */
  function Script(alert: Alert, messageOf: MessageCatalog, iconPath: Option<string>): string {
    SCRIPT_HEAD + Message(alert.title, messageOf(alert.alertType)) + SCRIPT_DIALOG + IconLine(iconPath) + SCRIPT_TAIL
  }

  /**
   * The script starts with the fixed head, the message follows it, and the
   * dialog options follow the message.
   */
  lemma ScriptLayout(alert: Alert, messageOf: MessageCatalog, iconPath: Option<string>)
    ensures OccursAt(Script(alert, messageOf, iconPath), SCRIPT_HEAD, 0)
    ensures OccursAt(Script(alert, messageOf, iconPath), Message(alert.title, messageOf(alert.alertType)),
                     |SCRIPT_HEAD|)
    ensures OccursAt(Script(alert, messageOf, iconPath), SCRIPT_DIALOG,
                     |SCRIPT_HEAD| + |Message(alert.title, messageOf(alert.alertType))|)
  {
    FivePartFront(SCRIPT_HEAD, Message(alert.title, messageOf(alert.alertType)), SCRIPT_DIALOG,
                  IconLine(iconPath), SCRIPT_TAIL);
  }

  /** The icon clause follows the dialog options, and the script ends with the fixed tail. */
  lemma ScriptEnd(alert: Alert, messageOf: MessageCatalog, iconPath: Option<string>)
    ensures OccursAt(Script(alert, messageOf, iconPath), IconLine(iconPath),
                     |SCRIPT_HEAD| + |Message(alert.title, messageOf(alert.alertType))| + |SCRIPT_DIALOG|)
    ensures OccursAt(Script(alert, messageOf, iconPath), SCRIPT_TAIL,
                     |Script(alert, messageOf, iconPath)| - |SCRIPT_TAIL|)
  {
    FivePartBack(SCRIPT_HEAD, Message(alert.title, messageOf(alert.alertType)), SCRIPT_DIALOG,
                  IconLine(iconPath), SCRIPT_TAIL);
  }

  /** Where the three options of a dialog-options text shaped like SCRIPT_DIALOG sit. */
  lemma OptionLayout(q: string, c: string, x: string, y: string, z: string)
    ensures OccursAt(q + c + x + c + y + c + z + c, x, |q| + |c|)
    ensures OccursAt(q + c + x + c + y + c + z + c, y, |q| + |c| + |x| + |c|)
    ensures OccursAt(q + c + x + c + y + c + z + c, z, |q| + |c| + |x| + |c| + |y| + |c|)
  {
    var s := q + c + x + c + y + c + z + c;
    var i := |q| + |c|;
    assert s[i..i + |x|] == x;
    i := i + |x| + |c|;
    assert s[i..i + |y|] == y;
    i := i + |y| + |c|;
    assert s[i..i + |z|] == z;
  }

  /**
   * The dialog options right after the message's closing quote: the title,
   * the buttons and the default button, each on a continuation line of its own.
   */
  lemma DialogOptions()
    ensures OccursAt(SCRIPT_DIALOG, DIALOG_TITLE, 1 + |CONTINUED|)
    ensures OccursAt(SCRIPT_DIALOG, DIALOG_BUTTONS, 1 + |CONTINUED| + |DIALOG_TITLE| + |CONTINUED|)
    ensures OccursAt(SCRIPT_DIALOG, DEFAULT_BUTTON,
                     1 + |CONTINUED| + |DIALOG_TITLE| + |CONTINUED| + |DIALOG_BUTTONS| + |CONTINUED|)
  {
    OptionLayout("\"", CONTINUED, DIALOG_TITLE, DIALOG_BUTTONS, DEFAULT_BUTTON);
  }

  /** Every option of a script shaped like the template, whatever its other parts, is in it. */
  lemma OptionsContained(h: string, m: string, q: string, c: string, x: string, y: string, z: string,
                         l: string, t: string)
    ensures Contains(h + m + (q + c + x + c + y + c + z + c) + l + t, x)
    ensures Contains(h + m + (q + c + x + c + y + c + z + c) + l + t, y)
    ensures Contains(h + m + (q + c + x + c + y + c + z + c) + l + t, z)
  {
    var s := h + m + (q + c + x + c + y + c + z + c) + l + t;
    var i := |h| + |m| + |q| + |c|;
    assert s[i..i + |x|] == x;
    OccursImpliesContains(s, x, i);
    i := i + |x| + |c|;
    assert s[i..i + |y|] == y;
    OccursImpliesContains(s, y, i);
    i := i + |y| + |c|;
    assert s[i..i + |z|] == z;
    OccursImpliesContains(s, z, i);
  }

  /**
   * Whatever the alert and the icon, the script shows a dialog titled
   * "Meeting Alert" with the buttons "Dismiss" and "Open Calendar", the
   * latter being the default.
   */
  lemma ScriptShowsMeetingDialog(alert: Alert, messageOf: MessageCatalog, iconPath: Option<string>)
    ensures Contains(Script(alert, messageOf, iconPath), DIALOG_TITLE)
    ensures Contains(Script(alert, messageOf, iconPath), DIALOG_BUTTONS)
    ensures Contains(Script(alert, messageOf, iconPath), DEFAULT_BUTTON)
  {
    OptionsContained(SCRIPT_HEAD, Message(alert.title, messageOf(alert.alertType)), "\"", CONTINUED,
                     DIALOG_TITLE, DIALOG_BUTTONS, DEFAULT_BUTTON, IconLine(iconPath), SCRIPT_TAIL);
  }

  /** The handler that shows each alert as a macOS dialog. */
  class MacNotificationHandler {
    /** AlertType.message(). */
    const messageOf: MessageCatalog
    /** cachedIconPath; None is Java's null. */
    var cachedIconPath: Option<string>
    /** How many times the class path has been asked for the icon. */
    ghost var lookups: nat
    /** The scripts handed to osascript, in order. */
    ghost var scripts: seq<string>

    constructor(messageOf: MessageCatalog)
      ensures this.messageOf == messageOf
      ensures cachedIconPath == None && lookups == 0 && scripts == []
    {
      this.messageOf := messageOf;
      cachedIconPath := None;
      lookups := 0;
      scripts := [];
    }

    /**
     * handleAlert: resolve the icon, build the script from this alert and
     * that icon, and run it; nothing else changes.
     */
    method HandleAlert(alert: Alert, lookup: IconLookup)
      modifies this
      ensures scripts == old(scripts) + [Script(alert, messageOf, Resolve(old(cachedIconPath), lookup).result)]
      ensures cachedIconPath == Resolve(old(cachedIconPath), lookup).cache
      ensures lookups == old(lookups) + (if old(cachedIconPath).None? then 1 else 0)
    {
      var iconPath := ResolveAppIconPath(lookup);
      var script := Script(alert, messageOf, iconPath);
      scripts := scripts + [script];
    }

    /**
     * resolveAppIconPath: the cached path if there is one, otherwise the
     * outcome of looking the resource up, cached only when it succeeds.
     */
    method ResolveAppIconPath(lookup: IconLookup) returns (path: Option<string>)
      modifies this`cachedIconPath, this`lookups
      ensures path == Resolve(old(cachedIconPath), lookup).result
      ensures cachedIconPath == Resolve(old(cachedIconPath), lookup).cache
      ensures lookups == old(lookups) + (if Resolve(old(cachedIconPath), lookup).consulted then 1 else 0)
    {
      if cachedIconPath.Some? {
        return cachedIconPath;
      }
      lookups := lookups + 1;
      match lookup
      case Missing =>
        return None;
      case FileUrl(p) =>
        cachedIconPath := Some(p);
        return cachedIconPath;
      case JarUrl(tempIcon) =>
        cachedIconPath := Some(tempIcon);
        return cachedIconPath;
      case Fails =>
        return None;
    }
  }
}
