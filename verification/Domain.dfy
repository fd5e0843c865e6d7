/** Records and time, shared by every module. Secrets, ids and tokens are strings of bytes. */
module Domain {
  datatype Option<+T> = None | Some(value: T)

  /** Instants and durations are nanoseconds; instants count from the Unix epoch. */
  type Time = int

  const SECOND: Time := 1_000_000_000
  const MINUTE: Time := 60 * SECOND
  const HOUR: Time := 60 * MINUTE
  const DAY: Time := 24 * HOUR

  /** Whole seconds since the epoch, rounded down as time.Time.Unix rounds. */
  function Unix(t: Time): int {
    t / 1_000_000_000
  }

  /** The instant a stored number of seconds stands for. */
  function Instant(sec: int): Time {
    sec * 1_000_000_000
  }

  /** The exact clock test on a stored deadline and the test on floored seconds always agree. */
  lemma FloorAgrees(now: Time, sec: int)
    ensures now < Instant(sec) <==> Unix(now) < sec
  {}

  /** Storing a deadline in seconds loses less than one second, and never moves it later. */
  lemma FloorLoss(t: Time)
    ensures t - SECOND < Instant(Unix(t)) <= t
  {}

  /** A relative lifetime as a deadline column: 0 stands for "Meta gave no deadline". */
  function DeadlineFrom(now: Time, lifetime: Time): int {
    if lifetime <= 0 then 0 else Unix(now + lifetime)
  }

  datatype OAuthRequest = OAuthRequest(
    clientID: string, redirectURI: string, codeChallenge: string, clientState: string, resource: string)

  /** What a reconnection link parks: a request of no client at all. */
  const RECONNECT := OAuthRequest("", "", "", "", "")

  datatype Page = Page(
    pageID: string, name: string, igUserID: string, igUsername: string, pageToken: string, syncedAt: Time)

  datatype LongLivedToken = LongLivedToken(token: string, expiresIn: Time)
}
