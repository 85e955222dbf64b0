/**
 * `hasExpired`: a request created at `date` (milliseconds) with an expiry
 * time in minutes has expired from the deadline on, the deadline included.
 */
module TokenRequestUtils {

  const MinuteMs := 60 * 1000

  /** The instant, in milliseconds, at which the request expires. */
  function ExpirationDate(date: int, expireTime: int): (deadline: int)
    ensures deadline - date == expireTime * MinuteMs
  {
    date + expireTime * 60 * 1000
  }

  /** The request has expired once at least `expireTime` minutes have elapsed since `date`. */
  predicate HasExpired(date: int, now: int, expireTime: int): (expired: bool)
    ensures expired <==> now - date >= expireTime * MinuteMs
  {
    now >= ExpirationDate(date, expireTime)
  }

  /** Expired exactly from the deadline on: at the deadline, and not one millisecond before. */
  lemma ExpiredFromDeadlineOn(date: int, expireTime: int)
    ensures HasExpired(date, date + expireTime * MinuteMs, expireTime)
    ensures !HasExpired(date, date + expireTime * MinuteMs - 1, expireTime)
  {
  }

  /** Once expired, a request stays expired. */
  lemma HasExpiredMonotone(date: int, now: int, later: int, expireTime: int)
    requires now <= later && HasExpired(date, now, expireTime)
    ensures HasExpired(date, later, expireTime)
  {
  }

  /** With no expiry time a request has expired as soon as `now` reaches its date. */
  lemma ZeroExpiryTime(date: int, now: int)
    ensures HasExpired(date, now, 0) <==> now >= date
  {
  }

  /** Each further minute of expiry time moves the deadline by 60000 milliseconds. */
  lemma ExpiryTimeInMinutes(date: int, now: int, expireTime: int)
    ensures HasExpired(date, now, expireTime + 1) <==> HasExpired(date, now - MinuteMs, expireTime)
  {
  }
}
