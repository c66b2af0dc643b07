/**
 * The continuous monitor of main.py: the `TicketMonitor` object with its notification
 * cooldown, one check cycle (`run_single_check`) and the start-up part of `main()`.
 * The clock (`time.time()`, `datetime.now()`), the token lookup and the broadcast call are
 * inputs; the endless `start_monitoring` loop is not part of this model.
 */
module Monitor {
  import opened Wrappers
  import opened Text
  import opened TicketChecker
  import opened Push
  import opened Settings

  /** Seconds that must pass after a delivered notification before the next one is sent. */
  const NotificationCooldown: real := 300.0

  /** Seconds between checks, as `main()` configures the monitor (15 minutes). */
  const CheckInterval: int := 60 * 15

  /** No earlier delivery, or the last one lies at least a cooldown before `now`. */
  predicate CooldownElapsed(last: Option<real>, now: real) {
    last.None? || now - last.value >= NotificationCooldown
  }

  /** Delivery times, in the order they were recorded, lie pairwise a cooldown apart. */
  ghost predicate Spaced(ds: seq<real>) {
    forall i, j | 0 <= i < j < |ds| :: ds[j] - ds[i] >= NotificationCooldown
  }

  /** A delivery a cooldown after the latest one keeps all deliveries spaced. */
  lemma SpacedAppend(ds: seq<real>, t: real)
    requires Spaced(ds)
    requires ds != [] ==> t - ds[|ds| - 1] >= NotificationCooldown
    ensures Spaced(ds + [t])
  {
  }

  /** Of any two recorded deliveries, the later in time lies at least a cooldown after the earlier. */
  lemma DeliveriesApart(ds: seq<real>, i: nat, j: nat)
    requires Spaced(ds) && i < |ds| && j < |ds| && ds[i] < ds[j]
    ensures ds[j] - ds[i] >= NotificationCooldown
  {
  }

  /**
   * `TicketMonitor.format_notification_message`: the "still on sale" text names the URL, the
   * "sold out" text the number of sold-out elements; both carry the timestamp.
   */
  function MonitorMessage(url: string, result: StatusResult, timestamp: string): (m: string)
    ensures !result.isSoldOut ==> Occurs("\nURL: " + url + "\n", m) && Occurs(timestamp, m)
    ensures result.isSoldOut ==> Occurs("\n完売要素数: " + NatToString(result.soldOutCount) + "\n", m) && Occurs(timestamp, m)
  {
    if !result.isSoldOut then
      var head := "🎫 チケット販売状況更新！\n\n❗️ 完売していません ❗️\n\n時刻: ";
      var tail := "\nすぐにチケットをチェックしてください！";
      OccursInFramedTemplate(head, timestamp, "\nURL: ", url, "\n", tail);
      head + timestamp + "\nURL: " + url + "\n" + tail
    else
      var head := "💔 チケット完売中\n\n時刻: ";
      var count := NatToString(result.soldOutCount);
      var tail := "\n引き続き監視を続けます...";
      OccursInFramedTemplate(head, timestamp, "\n完売要素数: ", count, "\n", tail);
      head + timestamp + "\n完売要素数: " + count + "\n" + tail
  }

  /** `TicketMonitor`: the monitored URL, the LINE token and the time of the last delivered notification. */
  class TicketMonitor {
    const url: string
    const checkInterval: int
    /** What `get_line_token` returned at construction; `None` where it raised. */
    const lineToken: Option<string>
    var lastNotificationTime: Option<real>
    /** Messages handed to the broadcast endpoint, oldest first. */
    ghost var attempts: seq<string>
    /** Times of the broadcasts the endpoint accepted, oldest first. */
    ghost var deliveries: seq<real>

    /**
     * The stored time is that of the latest accepted broadcast; accepted broadcasts lie a
     * cooldown apart; a monitor without a token never calls the endpoint.
     */
    ghost predicate Valid()
      reads this
    {
      && (forall k | 0 <= k < |deliveries| :: deliveries[k] > 0.0)
      && Spaced(deliveries)
      && lastNotificationTime == (if deliveries == [] then None else Some(deliveries[|deliveries| - 1]))
      && |deliveries| <= |attempts|
      && (!Present(lineToken) ==> attempts == [])
    }

    /** `TicketMonitor.__init__`, given the outcome of the token lookup. */
    constructor (url: string, checkInterval: int, token: Option<string>)
      ensures Valid()
      ensures this.url == url && this.checkInterval == checkInterval && lineToken == token
      ensures lastNotificationTime == None && attempts == [] && deliveries == []
    {
      this.url := url;
      this.checkInterval := checkInterval;
      lineToken := token;
      lastNotificationTime := None;
      attempts := [];
      deliveries := [];
    }

    /**
     * `TicketMonitor.send_notification` at clock reading `now` (seconds since the epoch),
     * with `delivery` the outcome the broadcast call would have. Without a token, or within
     * the cooldown of the last accepted broadcast, nothing is sent and nothing changes;
     * otherwise the message is broadcast once and only an accepted broadcast restarts the
     * cooldown, so a rejected or failed one may be retried at once.
     */
    method SendNotification(message: string, now: real, delivery: Delivery) returns (sent: bool)
      requires Valid() && now > 0.0
      modifies this
      ensures Valid()
      ensures var open := Present(lineToken) && CooldownElapsed(old(lastNotificationTime), now);
              && sent == (open && delivery == Accepted)
              && attempts == old(attempts) + (if open then [message] else [])
              && deliveries == old(deliveries) + (if sent then [now] else [])
              && lastNotificationTime == (if sent then Some(now) else old(lastNotificationTime))
    {
      if !Present(lineToken) {
        return false;
      }
      if lastNotificationTime.Some? && lastNotificationTime.value != 0.0
         && now - lastNotificationTime.value < NotificationCooldown
      {
        return false;
      }
      attempts := attempts + [message];
      if delivery == Raised {
        return false;
      }
      var success := delivery == Accepted;
      if success {
        SpacedAppend(deliveries, now);
        lastNotificationTime := Some(now);
        deliveries := deliveries + [now];
      }
      return success;
    }

    /**
     * `TicketMonitor.run_single_check` on the page contents `fetched`: the result is the
     * check's, and only a successful check that finds tickets on sale sends, once, the
     * "still on sale" message through the cooldown gate. A failed check and a sold-out
     * page send nothing.
     */
    method RunSingleCheck(fetched: Option<seq<Element>>, now: real, timestamp: string, delivery: Delivery)
      returns (result: StatusResult)
      requires Valid() && now > 0.0
      modifies this
      ensures Valid()
      ensures result == CheckTicketStatus(fetched)
      ensures var open := result.success && !result.isSoldOut && Present(lineToken)
                          && CooldownElapsed(old(lastNotificationTime), now);
              var sent := open && delivery == Accepted;
              && attempts == old(attempts) + (if open then [MonitorMessage(url, result, timestamp)] else [])
              && deliveries == old(deliveries) + (if sent then [now] else [])
              && lastNotificationTime == (if sent then Some(now) else old(lastNotificationTime))
    {
      result := CheckTicketStatus(fetched);
      if !result.success {
        return;
      }
      if !result.isSoldOut {
        var message := MonitorMessage(url, result, timestamp);
        var _ := SendNotification(message, now, delivery);
      }
    }
  }

  /**
   * `main()` of main.py up to the start of the monitoring loop, with `first` the outcome of
   * the first check. A missing setting, a first check that fails or raises all exit with 1;
   * otherwise the result is `None`: the monitoring loop starts on the same `monitor`, and it
   * ends only with exit 0 on a keyboard interrupt. `notified` lists the messages the first
   * check broadcast; the returned monitor carries the cooldown state that check left.
   */
  method Startup(urlEnv: Option<string>, classEnv: Option<string>, token: Option<string>, first: Probe,
                 now: real, timestamp: string, delivery: Delivery)
    returns (exitCode: Option<int>, monitor: TicketMonitor?, ghost notified: seq<string>)
    requires now > 0.0
    ensures exitCode.Some? ==> exitCode.value == 1
    ensures exitCode.None? <==> ConfigOk(urlEnv, classEnv) && first.Completed? && first.fetched.Some?
    ensures notified != [] <==> exitCode.None? && !AnyMarked(first.fetched.value) && Present(token)
    ensures notified != [] ==> notified == [MonitorMessage(urlEnv.value, CheckTicketStatus(first.fetched), timestamp)]
    ensures monitor == null <==> exitCode.Some?
    ensures monitor != null ==>
              && fresh(monitor) && monitor.Valid()
              && monitor.url == urlEnv.value && monitor.checkInterval == CheckInterval && monitor.lineToken == token
              && monitor.attempts == notified
              && monitor.lastNotificationTime == (if notified != [] && delivery == Accepted then Some(now) else None)
  {
    notified := [];
    var url := Required(TicketUrlKey, urlEnv);
    if url.Failure? {
      return Some(1), null, notified;
    }
    var targetClass := Required(TargetClassKey, classEnv);
    if targetClass.Failure? {
      return Some(1), null, notified;
    }
    var m := new TicketMonitor(url.value, CheckInterval, token);
    match first
    case Crashed(_) =>
      return Some(1), null, notified;
    case Completed(fetched) =>
      var result := m.RunSingleCheck(fetched, now, timestamp, delivery);
      notified := m.attempts;
      if !result.success {
        return Some(1), null, notified;
      }
      return None, m, notified;
  }

  /**
   * The monitoring loop starts with a cycle right after the first check, on the same monitor
   * (here 10 s later, the first check's page settle delay included). When the first check's
   * notification was accepted, that cycle falls within the cooldown and sends nothing.
   */
  method FirstLoopCycleSuppressed(url: string, targetClass: string, available: Element)
    returns (exitCode: Option<int>, last: Option<real>, ghost notified: seq<string>)
    requires url != "" && targetClass != "" && available.text == "残り10枚"
    ensures exitCode == None && last == Some(1000.0) && |notified| == 1
  {
    AbsentLead(SoldOutText, available.text);
    var monitor;
    exitCode, monitor, notified := Startup(Some(url), Some(targetClass), Some("token"),
                                           Completed(Some([available])), 1000.0, "t1", Accepted);
    var _ := monitor.RunSingleCheck(Some([available]), 1010.0, "t2", Accepted);
    last := monitor.lastNotificationTime;
    notified := monitor.attempts;
  }

  /**
   * Two cycles 100 s apart on a page still on sale: the first broadcast is accepted, the
   * second falls within the cooldown, so exactly one delivery is recorded.
   */
  method TwoCyclesWithinCooldown(available: Element) returns (last: Option<real>, ghost delivered: seq<real>)
    requires available.text == "残り10枚"
    ensures last == Some(1000.0) && delivered == [1000.0]
  {
    AbsentLead(SoldOutText, available.text);
    var monitor := new TicketMonitor("https://example.invalid/ticket", CheckInterval, Some("token"));
    var _ := monitor.RunSingleCheck(Some([available]), 1000.0, "t1", Accepted);
    var _ := monitor.RunSingleCheck(Some([available]), 1100.0, "t2", Accepted);
    last := monitor.lastNotificationTime;
    delivered := monitor.deliveries;
  }
}
