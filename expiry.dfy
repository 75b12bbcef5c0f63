/**
 * `AuthHelper.isTokenExpired` and `tokenNotExpired`.  The store is `localStorage` and `now` is
 * `new Date().valueOf()` in milliseconds, both passed in.
 */
module Expiry {
  import opened Wrappers
  import opened Storage
  import opened Numbers
  import Configuration

  /** `offsetSeconds || 0`: a missing (or zero) offset counts as no offset. */
  function OffsetSeconds(offsetSeconds: Option<int>): int {
    offsetSeconds.GetOr(0)
  }

  /** The instant, in milliseconds, the stored expiry date has to be later than. */
  function Deadline(now: int, offsetSeconds: Option<int>): int {
    now + OffsetSeconds(offsetSeconds) * 1000
  }

  /**
   * `isTokenExpired(offsetSeconds)`: the date stored under `"expires_in"` (always that key, not
   * the configured `expiryDateName`) is not later than now plus the offset.  `Number(...)` never
   * yields `null`, so the early `return false` for a missing date is never taken.
   */
  function IsTokenExpired(store: Store, now: int, offsetSeconds: Option<int>): (expired: bool)
    ensures Configuration.DefaultExpiryName !in store ==> (expired <==> Deadline(now, offsetSeconds) >= 0)
    ensures NumberOf(GetItem(store, Configuration.DefaultExpiryName)).NaN? ==> expired
    ensures NumberOf(GetItem(store, Configuration.DefaultExpiryName)).Finite? ==>
              (expired <==> NumberOf(GetItem(store, Configuration.DefaultExpiryName)).value <= Deadline(now, offsetSeconds))
  {
    var date := NumberOf(GetItem(store, Configuration.DefaultExpiryName));
    !GreaterThan(date, Deadline(now, offsetSeconds))
  }

  /**
   * `tokenNotExpired(tokenName)`: a token is stored under the name, and the expiry date has not
   * passed.  `None` is the omitted argument, which the default parameter replaces by
   * `"access_token"`; an explicit `null` is not modelled.
   */
  function TokenNotExpired(store: Store, now: int, tokenName: Option<string>): (valid: bool)
    ensures valid <==> && tokenName.GetOr(Configuration.DefaultTokenName) in store
                       && GreaterThan(NumberOf(GetItem(store, Configuration.DefaultExpiryName)), now)
    ensures Configuration.DefaultExpiryName !in store && now >= 0 ==> !valid
  {
    var token := GetItem(store, tokenName.GetOr(Configuration.DefaultTokenName));
    token.Some? && !IsTokenExpired(store, now, None)
  }

  // ---------------------------------------------------------------------------------------------

  /** An expiry date stored as `String(d)` has passed exactly when `d` is at most now plus the offset. */
  lemma ExpiredIffDatePassed(store: Store, now: int, offsetSeconds: Option<int>, d: int)
    requires GetItem(store, Configuration.DefaultExpiryName) == Some(DecimalString(d))
    ensures IsTokenExpired(store, now, offsetSeconds) <==> d <= now + OffsetSeconds(offsetSeconds) * 1000
  {
    NumberOfDecimalString(d);
  }

  /** With nothing stored, the date reads as 0, so the token counts as expired from the epoch on. */
  lemma MissingDateReadsAsEpoch(store: Store, now: int, offsetSeconds: Option<int>)
    requires Configuration.DefaultExpiryName !in store
    ensures IsTokenExpired(store, now, offsetSeconds) <==> Deadline(now, offsetSeconds) >= 0
  {
  }

  /** A stored date that is not a number reads as NaN, and NaN is never later than anything. */
  lemma UnreadableDateExpired(store: Store, now: int, offsetSeconds: Option<int>)
    requires NumberOf(GetItem(store, Configuration.DefaultExpiryName)).NaN?
    ensures IsTokenExpired(store, now, offsetSeconds)
  {
  }

  /** Only the entry under `"expires_in"` matters. */
  lemma ExpiryReadsOneKey(s1: Store, s2: Store, now: int, offsetSeconds: Option<int>)
    requires GetItem(s1, Configuration.DefaultExpiryName) == GetItem(s2, Configuration.DefaultExpiryName)
    ensures IsTokenExpired(s1, now, offsetSeconds) == IsTokenExpired(s2, now, offsetSeconds)
  {
  }

  /** A larger offset, or a later `now`, can only turn "not expired" into "expired". */
  lemma ExpiredMonotone(store: Store, now1: int, now2: int, off1: int, off2: int)
    requires now1 <= now2 && off1 <= off2
    requires IsTokenExpired(store, now1, Some(off1))
    ensures IsTokenExpired(store, now2, Some(off2))
  {
  }

  /** Leaving the offset out is the same as an offset of zero. */
  lemma NoOffsetIsZero(store: Store, now: int)
    ensures IsTokenExpired(store, now, None) == IsTokenExpired(store, now, Some(0))
  {
  }

  /**
   * `tokenNotExpired` holds exactly when a token is stored under the name (default
   * `"access_token"`) and the expiry date `String(d)` stored beside it is later than `now`.
   */
  lemma TokenNotExpiredIff(store: Store, now: int, tokenName: Option<string>, d: int)
    requires GetItem(store, Configuration.DefaultExpiryName) == Some(DecimalString(d))
    ensures TokenNotExpired(store, now, tokenName) <==>
              tokenName.GetOr(Configuration.DefaultTokenName) in store && d > now
  {
    ExpiredIffDatePassed(store, now, None, d);
  }

  /** No stored token means `tokenNotExpired` is false, whatever the expiry date says. */
  lemma NoTokenNotValid(store: Store, now: int, tokenName: Option<string>)
    requires tokenName.GetOr(Configuration.DefaultTokenName) !in store
    ensures !TokenNotExpired(store, now, tokenName)
  {
  }

  /** Storing a token and a future expiry date makes `tokenNotExpired()` true. */
  lemma StoredTokenNotExpired(store: Store, now: int, token: string, d: int)
    requires d > now
    ensures var s := SetItem(SetItem(store, Configuration.DefaultTokenName, token),
                             Configuration.DefaultExpiryName, DecimalString(d));
      TokenNotExpired(s, now, None)
  {
    var s := SetItem(SetItem(store, Configuration.DefaultTokenName, token),
                     Configuration.DefaultExpiryName, DecimalString(d));
    TokenNotExpiredIff(s, now, None, d);
  }
}
