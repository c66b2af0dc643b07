# Ticket sold-out monitor — a Dafny model

This project models the decision logic of a monitor that watches a ticket-sales page and
sends a LINE broadcast when tickets are on sale. Three parts are modelled:

- **The sold-out classifier** (`TicketChecker.check_sold_out` and `check_ticket_status` in
  ticket_checker.py). It scans the page elements in order, collects every text, and keeps
  the elements whose text contains the phrase `完売しました` ("sold out"). It then builds
  the result record: success flag, sold-out flag, count, message and details.
- **The notification cooldown gate** (`TicketMonitor.send_notification` in main.py). A
  notification is sent only with a token, and only 300 s or more after the last *accepted*
  broadcast. Only an accepted broadcast restarts the cooldown.
- **The controllers**: one check cycle of the continuous monitor (`run_single_check`) and
  the start-up of its `main()` in main.py, and the single-shot `main()` of check_once.py.
  The check_once exit codes are 0 (sold out), 1 (on sale, or the check failed),
  2 (configuration error) and 3 (unexpected error).

The browser fetch is an input, `Option<seq<Element>>`. `None` stands for a page that could
not be read or had no element with the target class. `Probe.Crashed` stands for an
exception escaping the check, since launching the browser lies outside the fetch's own
`try`. The clock reading, the timestamp text, the token lookup and the broadcast outcome
(`Accepted` / `Rejected` / `Raised`) are parameters too.

Files: `wrappers.dfy` (Option, Result), `text.dfy` (Python's substring `in`, decimal
rendering of a count), `ticket_checker.dfy`, `push.dfy` (broadcast outcome),
`settings.dfy` (`get_ticket_url` / `get_target_class`), `monitor.dfy` (main.py) and
`check_once.dfy`.

`TicketMonitor` is a class. Its one mutable field is `lastNotificationTime`, and two ghost
fields record the messages handed to the endpoint (`attempts`) and the times of accepted
broadcasts (`deliveries`). `Valid()` states five things:
- every delivery time is positive, so the truthiness test on the stored time never meets 0.0;
- any two deliveries lie at least 300 s apart;
- the stored time is the latest delivery;
- there are no more deliveries than attempts;
- a monitor without a token never calls the endpoint.

`check_sold_out` is an imperative loop, `CheckSoldOut`. It is proved equal to the
reference function `Classify`, which `check_ticket_status` and the controllers use.

Two behaviours of the code worth noting:
- The continuous monitor notifies only when tickets are **not** sold out (main.py:115-119).
  The sold-out branch of its message formatter is therefore never used by a cycle.
- In check_once.py a failed check exits with 1, the same code as "on sale".

## Model

| member | source | states |
|---|---|---|
| Text.Contains | ticket_checker.py:85 | the substring test is true exactly when the phrase occurs somewhere in the text |
| Text.NatToStringRoundTrip | ticket_checker.py:124 | the rendered count consists of decimal digits that read back as the count |
| TicketChecker.SoldOutElementsNonEmpty | ticket_checker.py:85-89 | the matches are non-empty iff some element's text contains the phrase, so a single match suffices |
| TicketChecker.SoldOutElementsIndices | ticket_checker.py:81-86 | the matches are exactly the elements whose text contains the phrase, taken at strictly increasing positions, so page order is kept |
| TicketChecker.Classify | ticket_checker.py:71-92 | the flag holds iff some text contains the phrase, iff the matches are non-empty; texts has one entry per element, in order; no elements gives not sold out with empty lists |
| TicketChecker.CheckSoldOut | ticket_checker.py:58-92 | the single loop that appends texts and matches yields exactly the reference classification |
| TicketChecker.CheckTicketStatus | ticket_checker.py:109-136 | success iff the fetch returned; a failed fetch is not sold out, counts 0 and has no details; otherwise the count is the number of matches, the total is the number of elements, and the flag says whether any text has the phrase; the message carries the count note iff sold out, and then as " (N個の要素で確認)" with N the count |
| TicketChecker.NoteOnlyWhenSoldOut | ticket_checker.py:122-124 | the count note occurs in the message exactly for a sold-out page, and then as " (N個の要素で確認)" with N the decimal count, delimited by the parentheses |
| TicketChecker.MixedPageIsSoldOut | ticket_checker.py:120-135 | a page with one sold-out and one available performance is sold out with exactly that one match |
| Settings.Required | check_once.py:14-26 | a setting is returned iff it is set and non-empty, otherwise the error names the variable |
| Monitor.SpacedAppend | main.py:50-58 | a delivery at least 300 s after the latest keeps every pair of deliveries 300 s apart |
| Monitor.DeliveriesApart | main.py:50-58 | of any two deliveries at times t1 < t2, t2 - t1 >= 300 |
| Monitor.MonitorMessage | main.py:65-94 | the "on sale" text has the URL on its own "URL: " line and names the time; the "sold out" text has the count on its own "完売要素数: " line and names the time |
| Monitor.TicketMonitor.constructor | main.py:11-32 | a new monitor keeps the URL, interval and looked-up token, with no notification sent yet |
| Monitor.TicketMonitor.SendNotification | main.py:34-63 | with no token or within 300 s of the last accepted broadcast: returns false, no broadcast, nothing changes; otherwise one broadcast, true iff accepted, and only an accepted one records `now`; the 300 s spacing of deliveries is preserved |
| Monitor.TicketMonitor.RunSingleCheck | main.py:96-121 | returns the check's result; a failed check or a sold-out page sends nothing and changes nothing; an on-sale page goes through the gate once with the "on sale" message |
| Monitor.Startup | main.py:185-221 | missing settings, a failed first check and an exception all exit 1; otherwise monitoring starts on the returned monitor; the first check notified iff it found tickets on sale and a token is set, and the monitor's stored time is that check's accepted delivery, if any |
| Monitor.FirstLoopCycleSuppressed | main.py:199-213 | the loop's first cycle, run at once on the monitor of the first check, sends nothing when that check's notification was accepted |
| Monitor.TwoCyclesWithinCooldown | main.py:44-58 | two on-sale cycles 100 s apart deliver exactly one notification |
| CheckOnce.SendNotificationIfAvailable | check_once.py:28-46 | never raises; true exactly when a usable (non-empty) token was found and the broadcast was accepted |
| CheckOnce.FormatNotificationMessage | check_once.py:48-65 | empty exactly when sold out, otherwise a message naming the URL and time |
| CheckOnce.Run | check_once.py:67-126 | exit 0 iff settings present and the page is sold out; 1 iff settings present, the check returned, and it failed or found tickets on sale, whether or not delivery succeeded; 2 on a missing setting or a ValueError; 3 on any other exception; at most one call of the send-if-available step, made exactly when tickets are on sale, with a message naming the URL; a delivery only with a usable token and an accepted broadcast |
| CheckOnce.AvailablePageNotifiesOnce | check_once.py:98-118 | a page showing only remaining seats causes exactly one call of the send-if-available step and exit code 1 |

`Settings.Required` also models the identical `get_ticket_url` and `get_target_class` of
main.py:153-183.

## Left out

- `get_page_elements` (ticket_checker.py:10-56): browser I/O with timeouts. Its outcome is an input; it already maps "no elements found" to `None`.
- The target class name (`class_name`, `TARGET_CLASS`): it only selects elements in the fetch, so the model checks that it is present and nothing more.
- `send_line_broadcast` and `get_line_token` (push.py): the HTTP call and the environment lookup. They become the `Delivery` outcome and an optional token; both controllers treat a missing or empty token alike (`Settings.Present`), as `get_line_token` never returns an empty one.
- `load_dotenv` and `os.getenv`: settings are optional strings passed in.
- All printing and logging. `time.time()` and `datetime.now()` become the parameters `now` and `timestamp`.
- Floating point: clock readings are Dafny reals, not IEEE doubles. `now` is required to be positive, as seconds since the epoch are. This is what lets `Valid()` rule out the falsy stored time 0.0.
- The endless loops `monitor_ticket_status` (ticket_checker.py:138-164) and `start_monitoring` (main.py:123-151). This includes their sleeps, the restart 30 s after an unexpected error and the exit on keyboard interrupt. One cycle is `RunSingleCheck`, and the spacing of deliveries is a class invariant, so it holds over any sequence of cycles.
- The demonstration `main()` of ticket_checker.py (ticket_checker.py:166-197): it only prints.
- Monitor.Startup: a keyboard interrupt during the first check is not modelled.
