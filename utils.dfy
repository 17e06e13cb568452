/**
 * The pure helpers of src/lib/utils.ts that carry rules: the pickup-window
 * check, the countdown text, the e-mail and phone validators (as character
 * scanners over the string) and the notification icons. Times are integer
 * milliseconds; `now` is a parameter instead of the clock.
 */
module Utils {
  import opened Js

  // ----- pickup windows -----

  const HourMs := 3600000
  const MinuteMs := 60000

  /** The window starts in the future, ends after it starts and lasts at least
      an hour; the middle test is implied by the last. */
  function IsPickupTimeValid(startTime: int, endTime: int, now: int): (r: bool)
    ensures r <==> now < startTime && endTime - startTime >= HourMs
    ensures r ==> now < startTime < endTime && endTime - now > HourMs
  {
    startTime > now && endTime > startTime && endTime - startTime >= HourMs
  }

  /** A window of exactly one hour is accepted and one a millisecond shorter is refused. */
  lemma PickupWindowBoundary(startTime: int, now: int)
    requires startTime > now
    ensures IsPickupTimeValid(startTime, startTime + 3600000, now)
    ensures !IsPickupTimeValid(startTime, startTime + 3599999, now)
  {
  }

  /** Whole hours elapsed in `diffMs`. */
  function DiffHours(diffMs: nat): (h: nat)
    ensures h * HourMs <= diffMs < (h + 1) * HourMs
  {
    diffMs / HourMs
  }

  /** Whole minutes left over after the whole hours. */
  function DiffMinutes(diffMs: nat): (m: nat)
    ensures m <= 59
    ensures DiffHours(diffMs) * HourMs + m * MinuteMs <= diffMs < DiffHours(diffMs) * HourMs + (m + 1) * MinuteMs
  {
    (diffMs % HourMs) / MinuteMs
  }

  /**
   * The time left until `pickupTime`: "Expired" when it has passed, whole days
   * beyond 24 hours ("1 day", "3 days"), otherwise "<h>h <m>m", or "<m>m"
   * under an hour, all counted in whole (floored) units. "Expired" is shown
   * exactly when the pickup time is past, and a pickup due right now shows "0m".
   */
  function TimeUntilPickup(pickupTime: int, now: int): (r: string)
    ensures r == "Expired" <==> pickupTime < now
    ensures pickupTime == now ==> r == "0m"
    ensures var d := pickupTime - now;
            d >= 0 && d / HourMs > 24 ==>
              r == NatToString(d / HourMs / 24) + " day" + (if d / HourMs / 24 > 1 then "s" else "")
    ensures var d := pickupTime - now;
            d >= 0 && 0 < d / HourMs <= 24 ==>
              r == NatToString(d / HourMs) + "h " + NatToString((d % HourMs) / MinuteMs) + "m"
    ensures var d := pickupTime - now;
            d >= 0 && d / HourMs == 0 ==> r == NatToString(d / MinuteMs) + "m"
  {
    var diffMs := pickupTime - now;
    if diffMs < 0 then "Expired" else Countdown(diffMs)
  }

  /** The text for a pickup `diffMs` milliseconds away; it starts with a digit. */
  function Countdown(diffMs: nat): (r: string)
    ensures |r| > 0 && IsDigit(r[0])
    ensures diffMs == 0 ==> r == "0m"
  {
    var diffHours := DiffHours(diffMs);
    var diffMinutes := DiffMinutes(diffMs);
    var lead := if diffHours > 24 then NatToString(diffHours / 24)
                else if diffHours > 0 then NatToString(diffHours)
                else NatToString(diffMinutes);
    var r := if diffHours > 24 then
               var days := diffHours / 24;
               lead + " day" + (if days > 1 then "s" else "")
             else if diffHours > 0 then lead + "h " + NatToString(diffMinutes) + "m"
             else lead + "m";
    assert r[0] == lead[0];
    assert diffMs == 0 ==> lead == "0";
    r
  }

  /** Exactly 24 hours is still shown in hours; one more hour switches to days. */
  lemma TimeUntilPickupDayBoundary(now: int)
    ensures TimeUntilPickup(now + 24 * HourMs, now) == "24h 0m"
    ensures TimeUntilPickup(now + 25 * HourMs, now) == "1 day"
    ensures TimeUntilPickup(now + 48 * HourMs, now) == "2 days"
  {
    assert DiffHours(24 * HourMs) == 24 && DiffMinutes(24 * HourMs) == 0;
    assert DiffHours(25 * HourMs) == 25;
    assert DiffHours(48 * HourMs) == 48;
    assert NatToString(24) == "24";
    assert NatToString(0) == "0";
    assert NatToString(1) == "1";
    assert NatToString(2) == "2";
  }

  /** In the day branch the unit is plural exactly when there is more than one day. */
  lemma TimeUntilPickupPlural(pickupTime: int, now: int)
    requires pickupTime - now >= 25 * HourMs
    ensures var r := TimeUntilPickup(pickupTime, now);
            var days := DiffHours(pickupTime - now) / 24;
            (r[|r| - 1] == 's' <==> days > 1) && days >= 1
  {
  }

  // ----- e-mail -----

  /** A character of the class `[^\s@]`. */
  predicate EmailChar(c: char)
  {
    c != '@' && !IsWhitespace(c)
  }

  /** Scans `s`, accepting when every character is of the class `[^\s@]`. */
  function AllEmailChars(s: string): (r: bool)
    ensures r <==> forall k :: 0 <= k < |s| ==> EmailChar(s[k])
  {
    if |s| == 0 then true
    else if !EmailChar(s[0]) then false
    else
      assert forall k :: 1 <= k < |s| ==> s[k] == s[1..][k - 1];
      AllEmailChars(s[1..])
  }

  /** Scans `s` for its first `c`; `|s|` when there is none. */
  function IndexOf(s: string, c: char): (i: nat)
    ensures i <= |s|
    ensures i < |s| ==> s[i] == c
    ensures forall k :: 0 <= k < i ==> s[k] != c
  {
    if |s| == 0 then 0
    else if s[0] == c then 0
    else
      assert forall k :: 1 <= k < |s| ==> s[k] == s[1..][k - 1];
      1 + IndexOf(s[1..], c)
  }

  /** A '.' with at least one character on each side. */
  function HasInnerDot(d: string): (r: bool)
    ensures r <==> exists p :: 0 < p < |d| - 1 && d[p] == '.'
  {
    |d| >= 3 &&
      var inner := d[1..|d| - 1];
      assert forall p :: 0 < p < |d| - 1 ==> d[p] == inner[p - 1];
      IndexOf(inner, '.') < |inner|
  }

  /**
   * `/^[^\s@]+@[^\s@]+\.[^\s@]+$/.test(email)`, as a scan: split at the first
   * '@', check both sides, and look for a dot inside the domain. It accepts
   * exactly the strings the pattern matches.
   */
  function IsValidEmail(email: string): (r: bool)
    ensures r <==> EmailPattern(email)
  {
    var at := IndexOf(email, '@');
    EmailScanMatchesPattern(email, at);
    EmailScan(email, at)
  }

  /** The scan itself, given the position of the first '@'. */
  predicate EmailScan(email: string, at: nat)
  {
    0 < at < |email| &&
    AllEmailChars(email[..at]) &&
    AllEmailChars(email[at + 1..]) &&
    HasInnerDot(email[at + 1..])
  }

  /**
   * What the pattern matches, read off the regular expression: exactly one
   * '@', preceded by some text, followed by a domain with a '.' that has text
   * on both sides, and no white space anywhere.
   */
  ghost predicate EmailPattern(email: string)
  {
    exists at, dot :: 0 < at && at + 1 < dot < |email| - 1 && email[at] == '@' && email[dot] == '.' &&
      forall k :: 0 <= k < |email| ==> !IsWhitespace(email[k]) && (email[k] == '@' ==> k == at)
  }

  /** The scan from the first '@' accepts exactly the strings the pattern matches. */
  lemma EmailScanMatchesPattern(email: string, at: nat)
    requires at == IndexOf(email, '@')
    ensures EmailScan(email, at) <==> EmailPattern(email)
  {
    if EmailScan(email, at) {
      var domain := email[at + 1..];
      var p :| 0 < p < |domain| - 1 && domain[p] == '.';
      assert email[at + 1 + p] == '.';
      forall k | 0 <= k < |email|
        ensures !IsWhitespace(email[k]) && (email[k] == '@' ==> k == at)
      {
        if k < at {
          assert EmailChar(email[..at][k]);
        } else if k > at {
          assert EmailChar(domain[k - at - 1]);
        }
      }
      assert EmailPattern(email);
    }
    if EmailPattern(email) {
      var a, dot :| 0 < a && a + 1 < dot < |email| - 1 && email[a] == '@' && email[dot] == '.' &&
        forall k :: 0 <= k < |email| ==> !IsWhitespace(email[k]) && (email[k] == '@' ==> k == a);
      assert at == a;
      var domain := email[at + 1..];
      assert domain[dot - at - 1] == '.';
      assert forall k :: 0 <= k < |domain| ==> domain[k] == email[at + 1 + k];
      assert AllEmailChars(email[..at]);
      assert AllEmailChars(domain);
    }
  }

  // ----- phone -----

  /** A character of the class `[\d\s-()]`: in that class `-` stands for itself. */
  predicate PhoneChar(c: char)
  {
    IsDigit(c) || IsWhitespace(c) || c == '-' || c == '(' || c == ')'
  }

  /** Scans `s`, accepting when every character is of the class `[\d\s-()]`. */
  function AllPhoneChars(s: string): (r: bool)
    ensures r <==> forall k :: 0 <= k < |s| ==> PhoneChar(s[k])
  {
    if |s| == 0 then true
    else if !PhoneChar(s[0]) then false
    else
      assert forall k :: 1 <= k < |s| ==> s[k] == s[1..][k - 1];
      AllPhoneChars(s[1..])
  }

  /** `phone.length >= 10 && /^\+?[\d\s-()]+$/.test(phone)`, the length counted
      in UTF-16 code units. It accepts exactly the strings of the pattern. */
  function IsValidPhone(phone: string): (r: bool)
    ensures r <==> PhonePattern(phone)
  {
    PhoneScanMatchesPattern(phone);
    PhoneScan(phone)
  }

  predicate PhoneScan(phone: string)
  {
    var body := if |phone| > 0 && phone[0] == '+' then phone[1..] else phone;
    Utf16Length(phone) >= 10 && |body| > 0 && AllPhoneChars(body)
  }

  /** At least ten characters and, after an optional leading '+', a non-empty
      run of digits, white space, '-', '(' and ')'. */
  ghost predicate PhonePattern(phone: string)
  {
    |phone| >= 10 &&
    var start := if phone[0] == '+' then 1 else 0;
    start < |phone| && forall k :: start <= k < |phone| ==> PhoneChar(phone[k])
  }

  /** A '+' followed by characters of the phone class is all in the Basic
      Multilingual Plane, so its code-unit length is its character count. */
  lemma PhoneTextLength(phone: string, start: nat)
    requires start <= 1 && start <= |phone|
    requires start == 1 ==> phone[0] == '+'
    requires forall k :: start <= k < |phone| ==> PhoneChar(phone[k])
    ensures Utf16Length(phone) == |phone|
  {
    forall k | 0 <= k < |phone|
      ensures phone[k] as int <= 0xFFFF
    {
      if k >= start {
        assert PhoneChar(phone[k]);
      }
    }
    Utf16LengthOfBmp(phone);
  }

  /** The scan accepts exactly the pattern, and text of the pattern has as
      many code units as characters. */
  lemma PhoneScanMatchesPattern(phone: string)
    ensures PhoneScan(phone) <==> PhonePattern(phone)
    ensures PhonePattern(phone) ==> Utf16Length(phone) == |phone|
  {
    var start := if |phone| > 0 && phone[0] == '+' then 1 else 0;
    var body := phone[start..];
    assert forall k :: start <= k < |phone| ==> phone[k] == body[k - start];
    if AllPhoneChars(body) {
      assert forall k :: start <= k < |phone| ==> PhoneChar(phone[k]) by {
        forall k | start <= k < |phone|
          ensures PhoneChar(phone[k])
        {
          assert PhoneChar(body[k - start]);
        }
      }
      PhoneTextLength(phone, start);
    }
  }

  // ----- notification icons -----

  const NewDonationIcon := "\U{1F37D}\U{FE0F}"
  const ClaimAcceptedIcon := "\U{2705}"
  const PickupReminderIcon := "\U{23F0}"
  const RatingRequestIcon := "\U{2B50}"
  const DefaultIcon := "\U{1F4E2}"

  /** The icon shown for a notification of the given type. */
  function NotificationIcon(notificationType: string): (icon: string)
    ensures notificationType == "new_donation" ==> icon == NewDonationIcon
    ensures notificationType == "claim_accepted" ==> icon == ClaimAcceptedIcon
    ensures notificationType == "pickup_reminder" ==> icon == PickupReminderIcon
    ensures notificationType == "rating_request" ==> icon == RatingRequestIcon
    ensures icon == DefaultIcon <==>
              notificationType !in ["new_donation", "claim_accepted", "pickup_reminder", "rating_request"]
  {
    match notificationType
    case "new_donation" => NewDonationIcon
    case "claim_accepted" => ClaimAcceptedIcon
    case "pickup_reminder" => PickupReminderIcon
    case "rating_request" => RatingRequestIcon
    case _ => DefaultIcon
  }
}
