/**
 * The single-shot checker of check_once.py, run from a scheduler: check once, notify only
 * when tickets are on sale, and report the outcome through the exit code
 * (0 sold out, 1 on sale or check failed, 2 configuration error, 3 unexpected error).
 * The clock, the token lookup and the broadcast call are inputs.
 */
module CheckOnce {
  import opened Wrappers
  import opened Text
  import opened TicketChecker
  import opened Push
  import opened Settings

  /**
   * What one run did. `notified` lists the messages passed to
   * `send_notification_if_available`, whether or not its token lookup then succeeded and the
   * broadcast was made; `delivered` says whether a broadcast was accepted.
   */
  datatype Report = Report(notified: seq<string>, delivered: bool, exitCode: int)

  /**
   * `send_notification_if_available`, given the outcome of the token lookup (`None` where
   * `get_line_token` raised) and of the broadcast. It never raises: it reports success
   * only for a broadcast made with a usable token and accepted by the endpoint.
   */
  function SendNotificationIfAvailable(token: Option<string>, delivery: Delivery): (ok: bool)
    ensures ok <==> Present(token) && delivery == Accepted
  {
    if !Present(token) then false
    else if delivery == Raised then false
    else delivery == Accepted
  }

  /**
   * `format_notification_message`: empty for a sold-out result (nothing is to be sent);
   * otherwise a text naming the URL and the time.
   */
  function FormatNotificationMessage(result: StatusResult, url: string, timestamp: string): (m: string)
    ensures m == "" <==> result.isSoldOut
    ensures !result.isSoldOut ==> Occurs(url, m) && Occurs(timestamp, m)
  {
    if !result.isSoldOut then
      var head := "🎫 チケット販売開始！\n\n❗️ 完売していません ❗️\n\n時刻: ";
      var tail := "\n\nすぐにチケットをチェックしてください！";
      OccursInTemplate(head, timestamp, "\nURL: ", url, tail);
      assert |head| > 0;
      head + timestamp + "\nURL: " + url + tail
    else
      ""
  }

  /**
   * `main()` of check_once.py. `probe` is what the check did: returned with the fetched
   * page contents, or raised. A `ValueError` anywhere in the `try` block exits 2, any other
   * exception 3; the exits 0 and 1 leave through `SystemExit`, which the handlers do not
   * catch, so they are never remapped.
   */
  function Run(urlEnv: Option<string>, classEnv: Option<string>, probe: Probe,
               token: Option<string>, delivery: Delivery, timestamp: string): (r: Report)
    ensures r.exitCode == 0 <==> ConfigOk(urlEnv, classEnv) && probe.Completed? && probe.fetched.Some? && AnyMarked(probe.fetched.value)
    ensures r.exitCode == 1 <==> ConfigOk(urlEnv, classEnv) && probe.Completed? && (probe.fetched.Some? ==> !AnyMarked(probe.fetched.value))
    ensures r.exitCode == 2 <==> !ConfigOk(urlEnv, classEnv) || probe == Crashed(ValueErr)
    ensures r.exitCode == 3 <==> ConfigOk(urlEnv, classEnv) && probe == Crashed(OtherErr)
    ensures |r.notified| <= 1
    ensures r.notified != [] <==> ConfigOk(urlEnv, classEnv) && probe.Completed? && probe.fetched.Some? && !AnyMarked(probe.fetched.value)
    ensures r.notified != [] ==> Occurs(urlEnv.value, r.notified[0]) && Occurs(timestamp, r.notified[0])
    ensures r.delivered <==> r.notified != [] && Present(token) && delivery == Accepted
  {
    match Required(TicketUrlKey, urlEnv)
    case Failure(_) => Report([], false, 2)
    case Success(url) =>
      match Required(TargetClassKey, classEnv)
      case Failure(_) => Report([], false, 2)
      case Success(_) =>
        match probe
        case Crashed(ValueErr) => Report([], false, 2)
        case Crashed(OtherErr) => Report([], false, 3)
        case Completed(fetched) =>
          var result := CheckTicketStatus(fetched);
          if !result.success then Report([], false, 1)
          else if result.isSoldOut then Report([], false, 0)
          else
            var message := FormatNotificationMessage(result, url, timestamp);
            if message != "" then
              Report([message], SendNotificationIfAvailable(token, delivery), 1)
            else
              Report([], false, 1)
  }

  /** A page showing only remaining seats: one notification is attempted and the run exits 1. */
  lemma AvailablePageNotifiesOnce(url: string, targetClass: string, available: Element, token: Option<string>, delivery: Delivery)
    requires url != "" && targetClass != "" && available.text == "残り10枚"
    ensures var r := Run(Some(url), Some(targetClass), Completed(Some([available])), token, delivery, "t");
            |r.notified| == 1 && r.exitCode == 1
  {
  }
}
