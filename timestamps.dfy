/**
 * The textual timestamps the TTL schedule deals with: the 24-character
 * output of `Date.prototype.toISOString` and the minute-resolution form
 * the schedule accepts.
 */
module Timestamps {
  import JsStrings

  predicate IsDigit(c: char) {
    '0' <= c <= '9'
  }

  /** The first 17 characters of an ISO instant: `YYYY-MM-DDTHH:MM:`. */
  predicate HasMinutePrefix(s: string) {
    && |s| >= 17
    && IsDigit(s[0]) && IsDigit(s[1]) && IsDigit(s[2]) && IsDigit(s[3])
    && s[4] == '-' && IsDigit(s[5]) && IsDigit(s[6])
    && s[7] == '-' && IsDigit(s[8]) && IsDigit(s[9])
    && s[10] == 'T' && IsDigit(s[11]) && IsDigit(s[12])
    && s[13] == ':' && IsDigit(s[14]) && IsDigit(s[15])
    && s[16] == ':'
  }

  /** `YYYY-MM-DDTHH:MM:SS.mmmZ`, what `toISOString` yields for years 0 to 9999. */
  predicate IsIsoMillis(s: string) {
    && |s| == 24
    && HasMinutePrefix(s)
    && IsDigit(s[17]) && IsDigit(s[18])
    && s[19] == '.' && IsDigit(s[20]) && IsDigit(s[21]) && IsDigit(s[22])
    && s[23] == 'Z'
  }

  /** `YYYY-MM-DDTHH:MM:00Z`, the only form the TTL schedule accepts. */
  predicate IsMinuteStamp(t: string) {
    |t| == 20 && HasMinutePrefix(t) && t[17..] == "00Z"
  }

  /** `iso.slice(0, -7) + "00Z"`. */
  function TruncateToMinute(iso: string): (t: string)
    ensures IsIsoMillis(iso) ==> IsMinuteStamp(t) && t[..17] == iso[..17]
    ensures |iso| < 7 ==> t == "00Z"
  {
    JsStrings.DropLast(iso, 7) + "00Z"
  }

  /**
   * Two instants give the same stamp exactly when they agree on the date,
   * the hour and the minute: seconds and milliseconds are thrown away.
   */
  lemma SameStampIffSameMinute(a: string, b: string)
    requires IsIsoMillis(a) && IsIsoMillis(b)
    ensures TruncateToMinute(a) == TruncateToMinute(b) <==> a[..17] == b[..17]
  {
  }
}
