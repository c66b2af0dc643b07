/**
 * `get_ticket_url` and `get_target_class`, written identically in main.py and check_once.py:
 * read one environment variable and raise `ValueError` when it is unset or empty. The
 * environment lookup is replaced by the looked-up value.
 */
module Settings {
  import opened Wrappers

  const TicketUrlKey: string := "TICKET_URL"
  const TargetClassKey: string := "TARGET_CLASS"

  /** The `ValueError` raised for a missing setting, naming the variable. */
  datatype ConfigError = Missing(key: string)

  /**
   * Python truthiness of an `os.getenv` result: set and non-empty. It also decides whether a
   * LINE token is usable; `get_line_token` raises for an unset or empty token, so what it
   * returns always satisfies this.
   */
  predicate Present(value: Option<string>) {
    value.Some? && value.value != ""
  }

  /** The value of a required setting, or the error naming it when it is unset or empty. */
  function Required(key: string, value: Option<string>): (r: Result<string, ConfigError>)
    ensures r.Success? <==> Present(value)
    ensures r.Success? ==> Some(r.value) == value && r.value != ""
    ensures r.Failure? ==> r.error == Missing(key)
  {
    match value
    case None => Failure(Missing(key))
    case Some(v) => if v == "" then Failure(Missing(key)) else Success(v)
  }

  /** Both settings the ticket check needs (`TICKET_URL`, `TARGET_CLASS`) are present. */
  predicate ConfigOk(urlEnv: Option<string>, classEnv: Option<string>) {
    Present(urlEnv) && Present(classEnv)
  }
}
