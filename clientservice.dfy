/**
 * Client: the older, self-contained client that shows its own dialogs. It
 * announces its start, subscribes to the fixed topic and builds its script
 * from one of two templates.
 */
module ClientService {
  import opened Wrappers
  import opened Alerts
  import opened Text
  import opened Dialog
  import opened IconCache
  import Stomp

  /** The topic the Client subscribes to. */
  const MEETINGS_TOPIC: string := "/topic/meetings"
  /** The title of the alert the Client shows when it starts. */
  const STARTED_TITLE: string := "GCN Client Started"
  /** The button whose name in the dialog's answer opens the calendar. */
  const OPEN_CALENDAR: string := "Open Calendar"
  /** The command run when that button was chosen. */
  const OPEN_CALENDAR_COMMAND: seq<string> := ["open", "https://calendar.google.com"]

  /**
   * getScript: two templates, one naming the icon file and one using the
   * caution icon. AppleScript's `\` continuations of the template are joined
   * into one line, each continuation keeping its four-space indent.
   */
  function Script(title: string, alertType: AlertType, messageOf: MessageCatalog, iconPath: Option<string>): string {
    var message := Message(title, messageOf(alertType));
    if iconPath.Some? then
      "set x to output volume of (get volume settings)\n" +
      "set volume output volume 80\n" +
      "do shell script \"afplay /System/Library/Sounds/Glass.aiff\"\n" +
      "set volume output volume x\n" +
      "tell app \"System Events\" to display dialog \"" + message + "\" " +
      "    with title \"Meeting Alert\" " +
      "    buttons {\"Dismiss\", \"Open Calendar\"} " +
      "    default button \"Open Calendar\" " +
      "    with icon POSIX file \"" + iconPath.value + "\"\n"
    else
      "set x to output volume of (get volume settings)\n" +
      "set volume output volume 80\n" +
      "do shell script \"afplay /System/Library/Sounds/Glass.aiff\"\n" +
      "set volume output volume x\n" +
      "tell app \"System Events\" to display dialog \"" + message + "\" " +
      "    with title \"Meeting Alert\" " +
      "    buttons {\"Dismiss\", \"Open Calendar\"} " +
      "    default button \"Open Calendar\" " +
      "    with icon caution\n"
  }

  /** What both templates have before the dialog text. */
  const SCRIPT_HEAD: string :=
    "set x to output volume of (get volume settings)\n" +
    "set volume output volume 80\n" +
    "do shell script \"afplay /System/Library/Sounds/Glass.aiff\"\n" +
    "set volume output volume x\n" +
    "tell app \"System Events\" to display dialog \""

  /** What both templates have between the dialog text and the icon clause. */
  const SCRIPT_DIALOG: string :=
    "\" " +
    "    with title \"Meeting Alert\" " +
    "    buttons {\"Dismiss\", \"Open Calendar\"} " +
    "    default button \"Open Calendar\" " +
    "    "

  /** Regrouping the parts of the icon-file template around its dialog options and its icon clause. */
  lemma RegroupIconFile(h: string, m: string, q: string, t: string, b: string, d: string,
                        ind: string, pre: string, path: string, cl: string, nl: string)
    ensures h + m + q + t + b + d + (ind + pre) + path + (cl + nl) ==
            h + m + (q + t + b + d + ind) + (pre + path + cl) + nl
  {
  }

  /** Regrouping the parts of the caution template around its dialog options and its icon clause. */
  lemma RegroupCaution(h: string, m: string, q: string, t: string, b: string, d: string,
                       ind: string, icon: string, nl: string)
    ensures h + m + q + t + b + d + (ind + icon + nl) == h + m + (q + t + b + d + ind) + icon + nl
  {
  }

  /**
   * The template naming the icon file is the common text, the message, the
   * common dialog options, the icon clause MacNotificationHandler also uses,
   * and a final line break.
   */
  lemma ScriptWithIconFile(title: string, alertType: AlertType, messageOf: MessageCatalog, path: string)
    ensures Script(title, alertType, messageOf, Some(path)) ==
            SCRIPT_HEAD + Message(title, messageOf(alertType)) + SCRIPT_DIALOG + IconLine(Some(path)) + "\n"
  {
    assert "    with icon POSIX file \"" == "    " + POSIX_ICON_PREFIX;
    assert "\"\n" == "\"" + "\n";
    RegroupIconFile(SCRIPT_HEAD, Message(title, messageOf(alertType)), "\" ", "    with title \"Meeting Alert\" ",
                    "    buttons {\"Dismiss\", \"Open Calendar\"} ", "    default button \"Open Calendar\" ",
                    "    ", POSIX_ICON_PREFIX, path, "\"", "\n");
  }

  /** The same for the template with the caution icon. */
  lemma ScriptWithCautionIcon(title: string, alertType: AlertType, messageOf: MessageCatalog)
    ensures Script(title, alertType, messageOf, None) ==
            SCRIPT_HEAD + Message(title, messageOf(alertType)) + SCRIPT_DIALOG + IconLine(None) + "\n"
  {
    assert "    with icon caution\n" == "    " + CAUTION_ICON + "\n";
    RegroupCaution(SCRIPT_HEAD, Message(title, messageOf(alertType)), "\" ", "    with title \"Meeting Alert\" ",
                   "    buttons {\"Dismiss\", \"Open Calendar\"} ", "    default button \"Open Calendar\" ",
                   "    ", CAUTION_ICON, "\n");
  }

  /**
   * The two templates differ only in the icon clause: each is the common
   * text, the message, the common dialog options, the icon clause that
   * MacNotificationHandler also uses, and a final line break.
   */
  lemma ScriptBranchesDifferOnlyInIcon(title: string, alertType: AlertType, messageOf: MessageCatalog, iconPath: Option<string>)
    ensures Script(title, alertType, messageOf, iconPath) ==
            SCRIPT_HEAD + Message(title, messageOf(alertType)) + SCRIPT_DIALOG + IconLine(iconPath) + "\n"
  {
    match iconPath
    case Some(path) => ScriptWithIconFile(title, alertType, messageOf, path);
    case None => ScriptWithCautionIcon(title, alertType, messageOf);
  }

  /**
   * The test the response reader applies to the first line osascript prints:
   * open the calendar exactly when there is a line and it contains "Open Calendar".
   */
  predicate OpensCalendar(response: Option<string>)
    ensures OpensCalendar(response) ==> response.Some? && |OPEN_CALENDAR| <= |response.value|
  {
    response.Some? && Contains(response.value, OPEN_CALENDAR)
  }

  /** The calendar is opened exactly when the line exists and "Open Calendar" occurs in it somewhere. */
  lemma OpensCalendarIff(response: Option<string>)
    ensures OpensCalendar(response) <==>
            response.Some? && exists i :: OccursAt(response.value, OPEN_CALENDAR, i)
  {
    if response.Some? {
      ContainsIff(response.value, OPEN_CALENDAR);
    }
  }

  /** Any line that names the button, wherever and with whatever around it, opens the calendar. */
  lemma NamingTheButtonOpensCalendar(before: string, after: string)
    ensures OpensCalendar(Some(before + OPEN_CALENDAR + after))
  {
    OccursInMiddle(before, OPEN_CALENDAR, after, OPEN_CALENDAR, 0);
    OccursImpliesContains(before + OPEN_CALENDAR + after, OPEN_CALENDAR, |before|);
  }

  /** What osascript prints for the two buttons: only the first opens the calendar. */
  lemma DialogAnswers()
    ensures OpensCalendar(Some("button returned:Open Calendar"))
    ensures !OpensCalendar(Some("button returned:Dismiss"))
  {
    NamingTheButtonOpensCalendar("button returned:", "");
    assert "button returned:" + OPEN_CALENDAR + "" == "button returned:Open Calendar";
    FirstCharAbsent("button returned:Dismiss", OPEN_CALENDAR);
  }

  /** What the Client does to the world outside the process, in order. */
  datatype Effect =
    | RunOsascript(script: string)     // osascript -e script
    | ConnectAsync(url: string)        // a fresh STOMP client asked to connect
    | Exec(command: seq<string>)       // Runtime.exec(command)

  /** The Client service. */
  class Client {
    /** The server URL. */
    const url: string
    /** AlertType.message(). */
    const messageOf: MessageCatalog
    /** cachedIconPath; None is Java's null. */
    var cachedIconPath: Option<string>
    /** How many times the class path has been asked for the icon. */
    ghost var lookups: nat
    /** Everything the Client has done outside the process. */
    ghost var effects: seq<Effect>

    constructor(url: string, messageOf: MessageCatalog)
      ensures this.url == url && this.messageOf == messageOf
      ensures cachedIconPath == None && lookups == 0 && effects == []
    {
      this.url := url;
      this.messageOf := messageOf;
      cachedIconPath := None;
      lookups := 0;
      effects := [];
    }

    /**
     * connect: first shows the "GCN Client Started" alert of type
     * STARTING_NOW, then asks a newly made STOMP client to connect.
     */
    method Connect(lookup: IconLookup)
      modifies this
      ensures effects == old(effects) +
                [RunOsascript(Script(STARTED_TITLE, STARTING_NOW, messageOf, Resolve(old(cachedIconPath), lookup).result)),
                 ConnectAsync(url)]
      ensures cachedIconPath == Resolve(old(cachedIconPath), lookup).cache
      ensures lookups == old(lookups) + (if old(cachedIconPath).None? then 1 else 0)
    {
      BlastMacAlert(STARTED_TITLE, STARTING_NOW, lookup);
      effects := effects + [ConnectAsync(url)];
    }

    /** afterConnected: one subscription, to the fixed meetings topic. */
    method AfterConnected(session: Stomp.StompSession)
      modifies session
      ensures session.subscriptions == old(session.subscriptions) + [MEETINGS_TOPIC]
    {
      session.Subscribe(MEETINGS_TOPIC);
    }

    /**
     * handleFrame and triggerLocalAction: the frame's title and type are
     * shown as they arrived.
     */
    method TriggerLocalAction(alert: Alert, lookup: IconLookup)
      modifies this
      ensures effects == old(effects) +
                [RunOsascript(Script(alert.title, alert.alertType, messageOf, Resolve(old(cachedIconPath), lookup).result))]
      ensures cachedIconPath == Resolve(old(cachedIconPath), lookup).cache
      ensures lookups == old(lookups) + (if old(cachedIconPath).None? then 1 else 0)
    {
      BlastMacAlert(alert.title, alert.alertType, lookup);
    }

    /** blastMacAlert: resolve the icon, build the script from it, run the script. */
    method BlastMacAlert(title: string, alertType: AlertType, lookup: IconLookup)
      modifies this
      ensures effects == old(effects) +
                [RunOsascript(Script(title, alertType, messageOf, Resolve(old(cachedIconPath), lookup).result))]
      ensures cachedIconPath == Resolve(old(cachedIconPath), lookup).cache
      ensures lookups == old(lookups) + (if old(cachedIconPath).None? then 1 else 0)
    {
      var iconPath := ResolveAppIconPath(lookup);
      var script := Script(title, alertType, messageOf, iconPath);
      effects := effects + [RunOsascript(script)];
    }

    /**
     * The response reader's decision once it has read the first line the
     * dialog printed (None when there was none).
     */
    method HandleDialogResponse(response: Option<string>)
      modifies this`effects
      ensures effects == old(effects) + (if OpensCalendar(response) then [Exec(OPEN_CALENDAR_COMMAND)] else [])
    {
      if response.Some? && Contains(response.value, OPEN_CALENDAR) {
        effects := effects + [Exec(OPEN_CALENDAR_COMMAND)];
      }
    }

    /** resolveAppIconPath: the same memoised lookup as MacNotificationHandler's. */
    method ResolveAppIconPath(lookup: IconLookup) returns (path: Option<string>)
      modifies this`cachedIconPath, this`lookups
      ensures path == Resolve(old(cachedIconPath), lookup).result
      ensures cachedIconPath == Resolve(old(cachedIconPath), lookup).cache
      ensures lookups == old(lookups) + (if Resolve(old(cachedIconPath), lookup).consulted then 1 else 0)
    {
      if cachedIconPath.Some? {
        return cachedIconPath;
      }
      lookups := lookups + 1;
      match lookup
      case Missing =>
        return None;
      case FileUrl(p) =>
        cachedIconPath := Some(p);
        return cachedIconPath;
      case JarUrl(tempIcon) =>
        cachedIconPath := Some(tempIcon);
        return cachedIconPath;
      case Fails =>
        return None;
    }
  }
}
