/** The session record the gateway owns and the provider enriches, and the
    clock arithmetic used on its expiry. */
module Sessions {
  import opened Wire

  /** Instants are integer nanoseconds since Go's zero time (1 January of year 1, UTC). */
  const Second: int := 1_000_000_000

  /** time.Time.Truncate(time.Second): round t down to a whole second. */
  function TruncateToSecond(t: int): (r: int)
    ensures r % Second == 0 && r <= t < r + Second
  {
    t - t % Second
  }

  /** The fields of a session that the provider reads or writes. */
  class Session {
    var accessToken: string
    var refreshToken: string
    var email: string
    var user: string
    var expiresOn: Option<int>   // None: no expiry recorded

    /** Both identity attributes are known, so profile resolution has nothing to do. */
    predicate HasProfile()
      reads this
    {
      user != "" && email != ""
    }
  }
}
