# gcn-client in Dafny

A model of the sequential logic of gcn-client. gcn-client is a desktop client that keeps a STOMP-over-WebSocket connection to a meeting-alert server. It subscribes to a per-user topic, hands every alert it receives to the registered alert handlers, and on macOS shows each alert as an AppleScript dialog. Three parts are modelled:

- **Connection manager** (`connection.dfy`, `WebSocketConnectionManager`):
  - lazy, one-time creation of the STOMP client;
  - one asynchronous connect request per `connect`, each with a fresh session handler;
  - subscription to `"/topic/" + personalKey`;
  - fan-out of each frame to the handler list fixed at construction;
  - the guard in `scheduleReconnect` that keeps at most one reconnect pending;
  - the reconnect task, `reconnectDelaySeconds` later, calling `connect` again.

  `scheduling.dfy` models the heartbeat `LoggingTaskScheduler` pass-through. `stomp.dfy` holds small stand-ins for the library's STOMP client and session: they record the settings they are given, the connections asked of them and the subscriptions made on them.
- **macOS notification handler** (`macnotification.dfy`): the dialog script built from an alert and an optional icon path, and the memoised icon lookup. Both are shared with the older client through `dialog.dfy` (message text and icon clause) and `iconcache.dfy` (the cache rule).
- **Older Client** (`clientservice.dfy`): its two-template script, the start-up alert followed by the connect, the fixed `/topic/meetings` subscription, and the "Open Calendar" response test.

Threads, the executor and `Instant.now()` become a sequential model. Each state-changing method is one event, and `now` is a logical clock in seconds. The outcome of the class-path lookup of `app.icns` is an argument (`IconLookup`). `AlertType.message()` is an argument of type `AlertType -> string`, so every property holds for every message table. The enum's own declaration is not part of this model. Effects on the outside world are recorded as traces: scripts handed to `osascript`, commands run, connections requested and handler calls.

Four facts about the code that the model keeps as they are:
- `handleFrame` calls the handlers in a plain loop with no try/catch (WebSocketConnectionManager.java:91-93). A handler that throws therefore stops the rest of that frame's dispatch.
- `scheduleReconnect` tests and sets `reconnectTask` without any synchronisation (WebSocketConnectionManager.java:99-104).
- `handleFrame` dispatches every frame it is given (WebSocketConnectionManager.java:90-94). Nothing discards frames from a superseded session.
- The log line at WebSocketConnectionManager.java:96 names `/topic/meetings`, but the subscription at line 83 is to `"/topic/" + personalKey`. The model follows the subscription.

## Model

| member | source | states |
|---|---|---|
| `Text.IndexOfFrom` | src/main/java/com/ayush/gcnclient/service/Client.java:93 | `indexOf(sub, from)` for a start `from` no later than the end of the text, the only case `contains` uses: the result is -1 exactly when `sub` occurs nowhere at or after `from`; otherwise it is the first such occurrence |
| `Text.Contains` | src/main/java/com/ayush/gcnclient/service/Client.java:93 | `contains`, defined as `indexOf(sub)` from 0 being non-negative; its own contract states only that a contained text is never longer than the text containing it, and `ContainsIff` states what it means |
| `Text.ContainsIff` | src/main/java/com/ayush/gcnclient/service/Client.java:93 | `contains` holds exactly when the substring occurs at some index |
| `Dialog.Message` | src/main/java/com/ayush/gcnclient/handlers/MacNotificationHandler.java:34 | computes the dialog text `title + " - " + type.message()` followed by seven line breaks (built the same way at Client.java:108); its contract gives the length and that it ends in the seven line breaks; `MessageShape` and `MessageTrailingNewlines` state the rest |
| `Dialog.MessageShape` | src/main/java/com/ayush/gcnclient/handlers/MacNotificationHandler.java:34 | the message is the title, then " - ", then the type's message, then 7 characters; when the type's text does not end in a line break, the message ends in exactly seven |
| `Dialog.MessageTrailingNewlines` | src/main/java/com/ayush/gcnclient/service/Client.java:108 | for every title and type text, the message ends in exactly 7 more line breaks than the type's text does |
| `Dialog.IconLine` | src/main/java/com/ayush/gcnclient/handlers/MacNotificationHandler.java:35 | computes the icon clause: `with icon POSIX file "<path>"` for a path, `with icon caution` for none; its contract states it is the caution clause exactly when there is no path; `IconLineRoundTrip` and `IconLineInjective` state the rest |
| `Dialog.IconLineRoundTrip` | src/main/java/com/ayush/gcnclient/handlers/MacNotificationHandler.java:35 | the icon clause is `with icon POSIX file "<path>"` or `with icon caution`, and which icon it names can always be read back |
| `Dialog.IconLineInjective` | src/main/java/com/ayush/gcnclient/handlers/MacNotificationHandler.java:35 | two icon choices give the same icon clause exactly when they are the same choice |
| `Dialog.ParseIconLineSound` | src/main/java/com/ayush/gcnclient/handlers/MacNotificationHandler.java:35 | every text read back as an icon clause is exactly the clause for the choice read |
| `IconCache.Resolve` | src/main/java/com/ayush/gcnclient/handlers/MacNotificationHandler.java:64-86 | the value returned is always the value cached afterwards; the class path is consulted exactly on a miss; a hit returns the cached value; on a miss the cache is filled exactly when the lookup yields a file URL or a copied temp file, with that path |
| `IconCache.CachedPathIsStable` | src/main/java/com/ayush/gcnclient/handlers/MacNotificationHandler.java:65-67 | once a path is cached, every later call returns it and none consults the class path |
| `IconCache.FirstSuccessIsMemoised` | src/main/java/com/ayush/gcnclient/handlers/MacNotificationHandler.java:68-86 | starting empty, calls before the first successful lookup return null and are retried; from that call on, every call returns its path; the class path is consulted exactly up to that call |
| `IconCache.NoSuccessNeverCaches` | src/main/java/com/ayush/gcnclient/service/Client.java:148-166 | starting empty, if every lookup is missing or fails, then every call returns null and every call consults the class path again |
| `MacNotification.Script` | src/main/java/com/ayush/gcnclient/handlers/MacNotificationHandler.java:33-62 | computes `getScript`: the template's text with the message and the icon clause put in for the two `%s`; it has no contract of its own, and `ScriptLayout`, `ScriptEnd` and `ScriptShowsMeetingDialog` state its layout |
| `MacNotification.ScriptLayout` | src/main/java/com/ayush/gcnclient/handlers/MacNotificationHandler.java:37-51 | the script starts with the fixed template head; the message follows verbatim right after it; the dialog options follow right after the message, starting with the quote that closes it |
| `MacNotification.ScriptEnd` | src/main/java/com/ayush/gcnclient/handlers/MacNotificationHandler.java:54-61 | the icon clause follows verbatim right after the dialog options, and the fixed tail ends the script |
| `MacNotification.DialogOptions` | src/main/java/com/ayush/gcnclient/handlers/MacNotificationHandler.java:51-54 | after the quote that closes the message, each of `with title "Meeting Alert"`, `buttons {"Dismiss", "Open Calendar"}` and `default button "Open Calendar"` stands at its exact offset, each right after a `¬` line continuation |
| `MacNotification.ScriptShowsMeetingDialog` | src/main/java/com/ayush/gcnclient/handlers/MacNotificationHandler.java:51-54 | for every alert and icon, the script contains `with title "Meeting Alert"`, the buttons "Dismiss" and "Open Calendar", and "Open Calendar" as default button; their exact offsets after the message's closing quote follow from `ScriptLayout` with `DialogOptions` |
| `MacNotification.MacNotificationHandler.HandleAlert` | src/main/java/com/ayush/gcnclient/handlers/MacNotificationHandler.java:19-31 | exactly one script is run, built from this alert and the icon path just resolved; only the icon cache and its lookup count also change |
| `MacNotification.MacNotificationHandler.ResolveAppIconPath` | src/main/java/com/ayush/gcnclient/handlers/MacNotificationHandler.java:64-87 | the returned path and the new cache are those of `Resolve`; the class path is consulted once on a miss and never on a hit |
| `ClientService.Script` | src/main/java/com/ayush/gcnclient/service/Client.java:107-142 | computes `getScript`: the two templates spelled out, the first with `with icon POSIX file "<path>"` when there is an icon path, the second with `with icon caution`; it has no contract of its own, and `ScriptWithIconFile`, `ScriptWithCautionIcon` and `ScriptBranchesDifferOnlyInIcon` state what it is |
| `ClientService.ScriptWithIconFile` | src/main/java/com/ayush/gcnclient/service/Client.java:110-124 | with an icon path, the script is the shared head, the message, the dialog options, the icon clause for that path, then a line break |
| `ClientService.ScriptWithCautionIcon` | src/main/java/com/ayush/gcnclient/service/Client.java:125-139 | without an icon path, the script is the shared head, the message, the dialog options, the caution clause, then a line break |
| `ClientService.ScriptBranchesDifferOnlyInIcon` | src/main/java/com/ayush/gcnclient/service/Client.java:107-142 | both templates are the same head, message and dialog options, followed by the icon clause (the same one MacNotificationHandler builds) and a line break |
| `ClientService.OpensCalendar` | src/main/java/com/ayush/gcnclient/service/Client.java:93 | the test `response != null && response.contains("Open Calendar")`; its own contract states that it holds only of a present line at least as long as "Open Calendar", and `OpensCalendarIff` states it both ways |
| `ClientService.OpensCalendarIff` | src/main/java/com/ayush/gcnclient/service/Client.java:93 | the calendar is opened exactly when a response line exists and "Open Calendar" occurs in it |
| `ClientService.NamingTheButtonOpensCalendar` | src/main/java/com/ayush/gcnclient/service/Client.java:93 | any response line containing "Open Calendar", with anything around it, opens the calendar |
| `ClientService.DialogAnswers` | src/main/java/com/ayush/gcnclient/service/Client.java:92-96 | the answer `button returned:Open Calendar` opens the calendar; `button returned:Dismiss` does not |
| `ClientService.Client.Connect` | src/main/java/com/ayush/gcnclient/service/Client.java:40-46 | the start-up alert ("GCN Client Started", STARTING_NOW) is shown first, then one connect request to the server URL |
| `ClientService.Client.AfterConnected` | src/main/java/com/ayush/gcnclient/service/Client.java:50-54 | exactly one subscription, to `/topic/meetings` |
| `ClientService.Client.TriggerLocalAction` | src/main/java/com/ayush/gcnclient/service/Client.java:63-79 | a frame's title and type reach the dialog script unchanged |
| `ClientService.Client.BlastMacAlert` | src/main/java/com/ayush/gcnclient/service/Client.java:81-86 | exactly one script is run, built from the title, the type and the icon path just resolved |
| `ClientService.Client.HandleDialogResponse` | src/main/java/com/ayush/gcnclient/service/Client.java:89-96 | `open https://calendar.google.com` is run once exactly when `OpensCalendar` holds of the response, and nothing otherwise |
| `ClientService.Client.ResolveAppIconPath` | src/main/java/com/ayush/gcnclient/service/Client.java:144-167 | the same memoised rule as MacNotificationHandler's (`Resolve`) |
| `Scheduling.LoggingTaskScheduler.Schedule` | src/main/java/com/ayush/gcnclient/service/WebSocketConnectionManager.java:118-152 | every scheduling call reaches the delegate exactly once, with its arguments unchanged; the delegate's future is returned as it is |
| `Connection.Topic` | src/main/java/com/ayush/gcnclient/service/WebSocketConnectionManager.java:83 | computes the destination `"/topic/" + personalKey`; its contract states that the key reads back from it, and `TopicRoundTrip` states both directions |
| `Connection.TopicRoundTrip` | src/main/java/com/ayush/gcnclient/service/WebSocketConnectionManager.java:83 | the topic is `"/topic/" + personalKey`: the key can be read back from it, and a destination reads back as a key exactly when it is that key's topic |
| `Connection.FanOut` | src/main/java/com/ayush/gcnclient/service/WebSocketConnectionManager.java:90-94 | computes the handler calls of one dispatch of the `for` loop; its contract states there is one call per registered handler, and `FanOutReachesEachHandlerOnce` states which call goes to which handler |
| `Connection.FanOutReachesEachHandlerOnce` | src/main/java/com/ayush/gcnclient/service/WebSocketConnectionManager.java:90-94 | one dispatch makes the i-th call to the i-th registered handler, for every handler, with the same alert; no handler index is called twice |
| `Connection.NextReconnectTask` | src/main/java/com/ayush/gcnclient/service/WebSocketConnectionManager.java:99-104 | after scheduleReconnect a reconnect is pending; a pending task is kept unchanged; otherwise the new task is due `now + delay` |
| `Connection.FailureBurstSchedulesOnce` | src/main/java/com/ayush/gcnclient/service/WebSocketConnectionManager.java:100-103 | any run of failure callbacks before the task runs schedules at most one task (none if one was pending), due `delay` after the first callback; later callbacks neither duplicate nor move it |
| `Connection.WebSocketConnectionManager.constructor` | src/main/java/com/ayush/gcnclient/service/WebSocketConnectionManager.java:44-48 | the handler list is the given collection in its order (it is a `const`, never changed afterwards); no client, no task |
| `Connection.WebSocketConnectionManager.Connect` | src/main/java/com/ayush/gcnclient/service/WebSocketConnectionManager.java:50-60 | the STOMP client is created and configured only when absent, otherwise kept as the same object; exactly one more connect request to the URL, with a fresh session handler owned by this manager; nothing else changes |
| `Connection.WebSocketConnectionManager.ScheduleReconnect` | src/main/java/com/ayush/gcnclient/service/WebSocketConnectionManager.java:99-104 | the task becomes `NextReconnectTask`; the schedule grows by one task only if none was pending; the invariant "at most one scheduled reconnect has not run" is kept |
| `Connection.WebSocketConnectionManager.ReconnectTaskFires` | src/main/java/com/ayush/gcnclient/service/WebSocketConnectionManager.java:102 | the pending task runs no earlier than it is due, becomes done, and performs a `connect`, with everything `Connect` promises |
| `Connection.WebSocketConnectionManager.Tick` | src/main/java/com/ayush/gcnclient/service/WebSocketConnectionManager.java:102 | the clock that `Instant.now()` reads moves forward by the given seconds |
| `Connection.WebSocketConnectionManager.SubscribeToMeetings` | src/main/java/com/ayush/gcnclient/service/WebSocketConnectionManager.java:82-83 | exactly one subscription, to `Topic(personalKey)` |
| `Connection.WebSocketConnectionManager.HandleFrame` | src/main/java/com/ayush/gcnclient/service/WebSocketConnectionManager.java:90-94 | the handler calls made are exactly `FanOut(alertHandlers, alert)`, appended after all earlier ones |
| `Connection.StompSessionHandler.AfterConnected` | src/main/java/com/ayush/gcnclient/service/WebSocketConnectionManager.java:64-67 | connecting subscribes the session exactly once, to the personal topic |
| `Connection.StompSessionHandler.HandleException` | src/main/java/com/ayush/gcnclient/service/WebSocketConnectionManager.java:70-73 | a protocol error has exactly the effect of scheduleReconnect (the same two-state predicate as a transport error) |
| `Connection.StompSessionHandler.HandleTransportError` | src/main/java/com/ayush/gcnclient/service/WebSocketConnectionManager.java:76-79 | a transport error has exactly the effect of scheduleReconnect (the same two-state predicate as a protocol error) |
| `Connection.FailureDuringPendingReconnect` | src/main/java/com/ayush/gcnclient/service/WebSocketConnectionManager.java:99-102 | delay 5 s, failure at t = 0, second failure at t = 5 before the task runs: one task, due at t = 5 and not 10, which reconnects through the same STOMP client (two connect requests in all) |

## Left out

- STOMP and WebSocket transport, heartbeat sending and Jackson decoding are library code. `afterConnected`, `handleException`, `handleTransportError` and `handleFrame` are events that arrive with an already decoded `Alert`. `getPayloadType` is not modelled.
- Threads, the single-threaded executor and `Instant.now()` are replaced by one event at a time and a logical clock. The unsynchronised check-and-set on `reconnectTask` can race between two callback threads. The model claims nothing about that race.
- Connection.WebSocketConnectionManager.ReconnectTaskFires: marks the task done just before its `connect` instead of just after. On one thread nothing differs, because `connect` never reads the task. Across threads it does. A failure callback can arrive on another thread while the task's `connect` is still running. It then finds `isDone()` false at WebSocketConnectionManager.java:100 and schedules nothing. When that is the only failure the attempt reports, no further reconnect is attempted. In the model that callback comes after the task is done and schedules a new one. The model claims nothing about that window.
- Text.IndexOfFrom: a start past the end of the text is not modelled as Java does it. For an empty `sub` Java returns the text's length, and the model returns -1. `contains` always starts at 0, so this case never arises in the code modelled.
- `shutdownScheduler` only calls `shutdownNow` on the executor, so it is not modelled. Cancelled futures, which also count as done, are not modelled either.
- Running `osascript` and `open`, the reader thread's I/O, and the `IOException` branches, which only log. A script is recorded as run once it is built. AppleScript's meaning is not modelled, only the script text.
- Class-path resource lookup and the temp-file copy are reduced to the `IconLookup` outcome of each call.
- Logging. That includes the "ms" in the reconnect log line (the delay is in seconds) and the `/topic/meetings` log text in `subscribeToMeetings`.
- `Client`'s `handleException` only logs. The old client never reconnects.
- `Client` decodes frames as `AlertTask`, which is not part of this model. Its title and type are modelled as an `Alert`.
- A null title or null type. Java would print `null` or throw. The model's strings are never null.
- `String.format` is modelled as concatenation of the fixed fragments with the arguments. There is no `%` handling beyond `%s`.
- Java text blocks are written out as the strings they produce:
  - incidental indentation and trailing blanks are removed;
  - `\` at a line end joins lines;
  - the `¬` character is `\U{00AC}`.
- Configuration comes from Spring `@Value` field injection. The model passes it as constructor arguments. The delay field `RECONNECT_DELAY_SECONDS` reads the property `receive-timeout-seconds`, and neither the code nor the model puts a lower bound on it.
- `Connection.WebSocketConnectionManager.Connect` returns the new session handler, where Java returns nothing. This lets a caller of the model deliver that handler's callbacks.
- Per-handler exception isolation is not modelled: in the code one throwing handler stops the dispatch. Discarding frames from a superseded session is not modelled either: the code does not do it.
