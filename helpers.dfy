/**
 * The general-purpose helpers of the shared utilities file: splitting a list
 * into chunks, describing a duration, shortening a string, the end of a
 * trial period, redirect paths that carry a toast, the site URL, thousands
 * separators and URL templates. The current time and the environment are
 * parameters.
 */
module Helpers {
  import opened Optional
  import opened Arith
  import opened Text

  // ---------------------------------------------------------------------
  // chunk
  // ---------------------------------------------------------------------

  /** The items of a list of chunks, in order. */
  function Flatten<T>(chunks: seq<seq<T>>): seq<T> {
    if chunks == [] then [] else Flatten(chunks[..|chunks| - 1]) + chunks[|chunks| - 1]
  }

  /**
   * One step of the `reduce` in `chunk`: item `idx` opens a new chunk when
   * `idx % size === 0`, and otherwise joins the last chunk. For `size` 0 the
   * remainder is NaN, so item 0 tries to extend a missing last chunk, which
   * throws a TypeError (None here).
   */
  function ChunkStep<T>(acc: seq<seq<T>>, item: T, idx: nat, size: int): Option<seq<seq<T>>> {
    if size != 0 && idx % Abs(size) == 0 then Some(acc + [[item]])
    else if acc == [] then None
    else Some(acc[..|acc| - 1] + [acc[|acc| - 1] + [item]])
  }

  /** The accumulator of `chunk` after its first `n` items. */
  function ChunkPrefix<T>(input: seq<T>, size: int, n: nat): Option<seq<seq<T>>>
    requires n <= |input|
  {
    if n == 0 then Some([])
    else
      match ChunkPrefix(input, size, n - 1)
      case None => None
      case Some(acc) => ChunkStep(acc, input[n - 1], n - 1, size)
  }

  /** `chunk(input, size)`; None where the JavaScript throws. */
  function Chunk<T>(input: seq<T>, size: int): Option<seq<seq<T>>> {
    ChunkPrefix(input, size, |input|)
  }

  /** Every chunk but the last holds exactly `m` items and the last holds 1 to `m`. */
  predicate WellChunked<T>(chunks: seq<seq<T>>, m: nat) {
    forall i :: 0 <= i < |chunks| ==> 1 <= |chunks[i]| <= m && (i < |chunks| - 1 ==> |chunks[i]| == m)
  }

  lemma FlattenSnoc<T>(chunks: seq<seq<T>>, last: seq<T>)
    ensures Flatten(chunks + [last]) == Flatten(chunks) + last
  {
    assert (chunks + [last])[..|chunks|] == chunks;
  }

  /** Item `k` opens a new chunk: the old last chunk was full. */
  lemma ChunkStepOpens<T>(acc: seq<seq<T>>, item: T, k: nat, m: nat)
    requires m > 0 && k % m == 0
    requires WellChunked(acc, m) && (k == 0 <==> acc == [])
    requires k > 0 ==> |acc[|acc| - 1]| == (k - 1) % m + 1
    ensures var c := acc + [[item]];
            Flatten(c) == Flatten(acc) + [item] && WellChunked(c, m) && |c[|c| - 1]| == k % m + 1
  {
    FlattenSnoc(acc, [item]);
    var c := acc + [[item]];
    if k > 0 {
      ModSucc(k - 1, m);
      assert (k - 1) % m == m - 1;
    }
    forall i | 0 <= i < |c| ensures 1 <= |c[i]| <= m && (i < |c| - 1 ==> |c[i]| == m) {
      if i < |acc| {
        assert c[i] == acc[i];
      } else {
        assert c[i] == [item];
      }
    }
  }

  /** Item `k` joins the last chunk, which had room for it. */
  lemma ChunkStepExtends<T>(acc: seq<seq<T>>, item: T, k: nat, m: nat)
    requires m > 0 && k % m != 0
    requires WellChunked(acc, m) && (k == 0 <==> acc == [])
    requires k > 0 ==> |acc[|acc| - 1]| == (k - 1) % m + 1
    ensures acc != []
    ensures var c := acc[..|acc| - 1] + [acc[|acc| - 1] + [item]];
            Flatten(c) == Flatten(acc) + [item] && WellChunked(c, m) && |c[|c| - 1]| == k % m + 1
  {
    ModSucc(k - 1, m);
    assert k % m == (k - 1) % m + 1;
    var init, last := acc[..|acc| - 1], acc[|acc| - 1];
    var c := init + [last + [item]];
    assert acc == init + [last];
    FlattenSnoc(init, last);
    FlattenSnoc(init, last + [item]);
    assert |last + [item]| == k % m + 1 <= m;
    forall i | 0 <= i < |c| ensures 1 <= |c[i]| <= m && (i < |c| - 1 ==> |c[i]| == m) {
      if i < |init| {
        assert c[i] == acc[i];
      } else {
        assert c[i] == last + [item];
      }
    }
  }

  lemma {:induction false} ChunkPrefixShape<T>(input: seq<T>, size: int, n: nat)
    requires size != 0 && n <= |input|
    ensures ChunkPrefix(input, size, n).Some?
    ensures var c := ChunkPrefix(input, size, n).value;
            && Flatten(c) == input[..n]
            && WellChunked(c, Abs(size))
            && (n == 0 <==> c == [])
            && (n > 0 ==> |c[|c| - 1]| == (n - 1) % Abs(size) + 1)
  {
    if n > 0 {
      var m := Abs(size);
      ChunkPrefixShape(input, size, n - 1);
      var acc := ChunkPrefix(input, size, n - 1).value;
      assert input[..n] == input[..n - 1] + [input[n - 1]];
      if (n - 1) % m == 0 {
        ChunkStepOpens(acc, input[n - 1], n - 1, m);
      } else {
        ChunkStepExtends(acc, input[n - 1], n - 1, m);
      }
    }
  }

  /**
   * For a non-zero size `chunk` returns chunks that give the input back when
   * concatenated; every chunk but the last has |size| items and the last has 1
   * to |size|; an empty input gives no chunks.
   */
  lemma ChunkSplitsInput<T>(input: seq<T>, size: int)
    requires size != 0
    ensures Chunk(input, size).Some?
    ensures var c := Chunk(input, size).value;
            Flatten(c) == input && WellChunked(c, Abs(size)) && (input == [] <==> c == [])
  {
    ChunkPrefixShape(input, size, |input|);
    assert input[..|input|] == input;
  }

  /** A chunk size of 0 throws on any non-empty input and gives [] on an empty one. */
  lemma ChunkOfZeroSize<T>(input: seq<T>)
    ensures Chunk(input, 0) == if input == [] then Some([]) else None
  {
    if input != [] {
      ChunkOfZeroSizeFails(input, |input|);
    }
  }

  lemma {:induction false} ChunkOfZeroSizeFails<T>(input: seq<T>, n: nat)
    requires 0 < n <= |input|
    ensures ChunkPrefix(input, 0, n) == None
  {
    if n > 1 {
      ChunkOfZeroSizeFails(input, n - 1);
    }
  }

  // ---------------------------------------------------------------------
  // formatSpentTime
  // ---------------------------------------------------------------------

  const SecondsPerMonth: int := 2592000
  const SecondsPerDay: int := 86400
  const SecondsPerHour: int := 3600
  const SecondsPerMinute: int := 60

  /** JavaScript's `%`: the remainder takes the sign of the dividend. */
  function JsRem(a: int, b: int): int
    requires b > 0
  {
    if a >= 0 then a % b else -((-a) % b)
  }

  datatype TimeUnit = Month | Day | Hour | Minute | Second

  function UnitSeconds(u: TimeUnit): nat {
    match u
    case Month => SecondsPerMonth
    case Day => SecondsPerDay
    case Hour => SecondsPerHour
    case Minute => SecondsPerMinute
    case Second => 1
  }

  function UnitName(u: TimeUnit): string {
    match u
    case Month => "month"
    case Day => "day"
    case Hour => "hour"
    case Minute => "minute"
    case Second => "second"
  }

  /** The five counts `formatSpentTime` computes from a number of seconds. */
  datatype TimeParts = TimeParts(months: int, days: int, hours: int, minutes: int, seconds: int)

  function SplitSeconds(value: int): TimeParts {
    TimeParts(
      value / SecondsPerMonth,
      JsRem(value, SecondsPerMonth) / SecondsPerDay,
      JsRem(value, SecondsPerDay) / SecondsPerHour,
      JsRem(value, SecondsPerHour) / SecondsPerMinute,
      JsRem(value, SecondsPerMinute))
  }

  /** The unit `formatSpentTime` reports and its count: the first positive of months, days, hours, minutes, else seconds. */
  function ReportedUnit(p: TimeParts): (TimeUnit, int) {
    if p.months > 0 then (Month, p.months)
    else if p.days > 0 then (Day, p.days)
    else if p.hours > 0 then (Hour, p.hours)
    else if p.minutes > 0 then (Minute, p.minutes)
    else (Second, p.seconds)
  }

  /** `formatSpentTime(value)`: "<count> <unit>", with an 's' when the count is above 1. */
  function FormatSpentTime(value: int): string {
    var (unit, count) := ReportedUnit(SplitSeconds(value));
    IntToString(count) + " " + UnitName(unit) + (if count > 1 then "s" else "")
  }

  /** For a non-negative duration the five counts are an exact mixed-radix split of it. */
  lemma SplitSecondsExact(value: nat)
    ensures var p := SplitSeconds(value);
            && value == p.months * SecondsPerMonth + p.days * SecondsPerDay + p.hours * SecondsPerHour
                        + p.minutes * SecondsPerMinute + p.seconds
            && p.months >= 0 && 0 <= p.days < 30 && 0 <= p.hours < 24 && 0 <= p.minutes < 60 && 0 <= p.seconds < 60
  {
    ModOfMod(value, SecondsPerDay, 30);
    ModOfMod(value, SecondsPerHour, 24);
    ModOfMod(value, SecondsPerMinute, 60);
  }

  /** The largest of month, day, hour and minute that fits in `value`, else second. */
  function LargestUnitWithin(value: nat): TimeUnit {
    if value >= SecondsPerMonth then Month
    else if value >= SecondsPerDay then Day
    else if value >= SecondsPerHour then Hour
    else if value >= SecondsPerMinute then Minute
    else Second
  }

  /**
   * For a non-negative duration the reported unit is the largest unit that
   * fits, and the count is how many whole such units the duration holds.
   */
  lemma ReportedUnitIsLargest(value: nat)
    ensures var (unit, count) := ReportedUnit(SplitSeconds(value));
            && unit == LargestUnitWithin(value)
            && count == value / UnitSeconds(unit)
            && count * UnitSeconds(unit) <= value < (count + 1) * UnitSeconds(unit)
  {
    var (unit, count) := ReportedUnit(SplitSeconds(value));
    DivModUnique(value, UnitSeconds(unit), value / UnitSeconds(unit), value % UnitSeconds(unit));
  }

  /** The text ends with 's' exactly when the count is above 1; zero seconds read "0 second". */
  lemma SpentTimePlural(value: int)
    ensures var (_, count) := ReportedUnit(SplitSeconds(value));
            var text := FormatSpentTime(value);
            text != [] && (text[|text| - 1] == 's' <==> count > 1)
    ensures FormatSpentTime(0) == "0 second"
  {
  }

  // ---------------------------------------------------------------------
  // getTruncatedString
  // ---------------------------------------------------------------------

  /**
   * `getTruncatedString(str, num, endLabel)`: None (`null`) for an empty string, the
   * string itself when it has at most `num` characters, and otherwise its
   * first `num` characters (none when `num` is negative) followed by `endLabel`.
   * The source's default `endLabel` is "..."; here every caller passes it.
   */
  function GetTruncatedString(str: string, num: int, endLabel: string): (r: Option<string>)
    ensures str == [] <==> r.None?
    ensures str != [] && |str| <= num ==> r == Some(str)
    ensures str != [] && 0 <= num < |str| ==> r == Some(str[..num] + endLabel)
    ensures str != [] && num < 0 ==> r == Some(endLabel)
  {
    if str == [] then None
    else
      var kept := if num <= 0 then 0 else if num < |str| then num else |str|;
      assert str[..0] + endLabel == endLabel;
      if |str| > num then Some(str[..kept] + endLabel) else Some(str)
  }

  /** A shortened string is a proper prefix of the input followed by the label, so it never has more than `num` of its characters. */
  lemma TruncationKeepsPrefix(str: string, num: int, endLabel: string)
    requires str != [] && |str| > num
    ensures var r := GetTruncatedString(str, num, endLabel).value;
            exists k :: 0 <= k < |str| && k <= (if num < 0 then 0 else num) && r == str[..k] + endLabel
  {
    var k := if num < 0 then 0 else num;
    assert GetTruncatedString(str, num, endLabel).value == str[..k] + endLabel;
  }

  // ---------------------------------------------------------------------
  // calculateTrialEndUnixTimestamp
  // ---------------------------------------------------------------------

  const MsPerDay: int := 24 * 60 * 60 * 1000

  /**
   * `calculateTrialEndUnixTimestamp(trialPeriodDays)` at the instant `nowMs`:
   * no trial end for a missing period or one under 2 days, otherwise the Unix
   * second `trialPeriodDays + 1` days after now.
   */
  function CalculateTrialEndUnixTimestamp(trialPeriodDays: Option<int>, nowMs: int): (r: Option<int>)
    ensures r.None? <==> trialPeriodDays.None? || trialPeriodDays.value < 2
    ensures r.Some? ==> r.value == nowMs / 1000 + (trialPeriodDays.value + 1) * 86400
  {
    match trialPeriodDays
    case None => None
    case Some(days) =>
      if days < 2 then None
      else
        var trialEnd := nowMs + (days + 1) * MsPerDay;
        DivAddMultiple(nowMs, (days + 1) * 86400, 1000);
        Some(trialEnd / 1000)
  }

  // ---------------------------------------------------------------------
  // getToastRedirect, getStatusRedirect, getErrorRedirect
  // ---------------------------------------------------------------------

  datatype ToastType = StatusToast | ErrorToast

  /** `toastKeyMap`: the query keys for the toast's name and description. */
  function ToastKeys(toastType: ToastType): (string, string) {
    match toastType
    case StatusToast => ("status", "status_description")
    case ErrorToast => ("error", "error_description")
  }

  /** `present ? `${url}&${param}` : url`. */
  function AppendIf(url: string, present: bool, param: string): string {
    if present then url + "&" + param else url
  }

  /**
   * `getToastRedirect(...)`: the path with the toast name as the first query
   * parameter, then the description when it is not empty, the button flag
   * when set and the caller's raw parameters when not empty. `encode` stands
   * for `encodeURIComponent`.
   */
  function GetToastRedirect(path: string, toastType: ToastType, toastName: string, toastDescription: string,
                            disableButton: bool, arbitraryParams: string, encode: string -> string): string
  {
    var (nameKey, descriptionKey) := ToastKeys(toastType);
    var redirectPath := path + "?" + nameKey + "=" + encode(toastName);
    var withDescription := AppendIf(redirectPath, toastDescription != "", descriptionKey + "=" + encode(toastDescription));
    var withButton := AppendIf(withDescription, disableButton, "disable_button=true");
    AppendIf(withButton, arbitraryParams != "", arbitraryParams)
  }

  function ParamIf(present: bool, param: string): seq<string> {
    if present then [param] else []
  }

  /** The query parameters a toast redirect carries, in order, each present only when it has something to say. */
  function ToastQuery(toastType: ToastType, toastName: string, toastDescription: string,
                      disableButton: bool, arbitraryParams: string, encode: string -> string): seq<string>
  {
    var (nameKey, descriptionKey) := ToastKeys(toastType);
    [nameKey + "=" + encode(toastName)]
    + ParamIf(toastDescription != "", descriptionKey + "=" + encode(toastDescription))
    + ParamIf(disableButton, "disable_button=true")
    + ParamIf(arbitraryParams != "", arbitraryParams)
  }

  /** Appending a parameter when present extends the joined query by that parameter. */
  lemma AppendIfQuery(path: string, params: seq<string>, present: bool, p: string)
    requires params != []
    ensures AppendIf(path + "?" + Join(params, '&'), present, p) == path + "?" + Join(params + ParamIf(present, p), '&')
  {
    if present {
      JoinSnoc(params, p, '&');
    } else {
      assert params + [] == params;
    }
  }

  /** A toast redirect is the path followed by '?' and its present parameters joined by '&'. */
  lemma ToastRedirectIsQueryString(path: string, toastType: ToastType, toastName: string, toastDescription: string,
                                   disableButton: bool, arbitraryParams: string, encode: string -> string)
    ensures GetToastRedirect(path, toastType, toastName, toastDescription, disableButton, arbitraryParams, encode)
            == path + "?" + Join(ToastQuery(toastType, toastName, toastDescription, disableButton, arbitraryParams, encode), '&')
  {
    var (nameKey, descriptionKey) := ToastKeys(toastType);
    var q0 := [nameKey + "=" + encode(toastName)];
    var q1 := q0 + ParamIf(toastDescription != "", descriptionKey + "=" + encode(toastDescription));
    var q2 := q1 + ParamIf(disableButton, "disable_button=true");
    assert path + "?" + nameKey + "=" + encode(toastName) == path + "?" + Join(q0, '&');
    AppendIfQuery(path, q0, toastDescription != "", descriptionKey + "=" + encode(toastDescription));
    AppendIfQuery(path, q1, disableButton, "disable_button=true");
    AppendIfQuery(path, q2, arbitraryParams != "", arbitraryParams);
  }

  /** `getStatusRedirect(...)`: a toast redirect whose first parameter is `status`. */
  function GetStatusRedirect(path: string, statusName: string, statusDescription: string,
                             disableButton: bool, arbitraryParams: string, encode: string -> string): (r: string)
    ensures path + "?status=" + encode(statusName) <= r
  {
    GetToastRedirect(path, StatusToast, statusName, statusDescription, disableButton, arbitraryParams, encode)
  }

  /** `getErrorRedirect(...)`: a toast redirect whose first parameter is `error`. */
  function GetErrorRedirect(path: string, errorName: string, errorDescription: string,
                            disableButton: bool, arbitraryParams: string, encode: string -> string): (r: string)
    ensures path + "?error=" + encode(errorName) <= r
  {
    GetToastRedirect(path, ErrorToast, errorName, errorDescription, disableButton, arbitraryParams, encode)
  }

  // ---------------------------------------------------------------------
  // getURL
  // ---------------------------------------------------------------------

  const LocalhostUrl: string := "http://localhost:3000/"

  /** `url.replace(/\/+$/, '')`: drops the trailing slashes. */
  function StripTrailingSlashes(s: string): (r: string)
    ensures r <= s && (r == [] || r[|r| - 1] != '/')
    ensures forall i :: |r| <= i < |s| ==> s[i] == '/'
  {
    if s != [] && s[|s| - 1] == '/' then StripTrailingSlashes(s[..|s| - 1]) else s
  }

  /** `path.replace(/^\/+/, '')`: drops the leading slashes. */
  function StripLeadingSlashes(s: string): (r: string)
    ensures |r| <= |s| && r == s[|s| - |r|..] && (r == [] || r[0] != '/')
    ensures forall i :: 0 <= i < |s| - |r| ==> s[i] == '/'
  {
    if s != [] && s[0] == '/' then StripLeadingSlashes(s[1..]) else s
  }

  /**
   * The configured site address: NEXT_PUBLIC_SITE_URL when it is set and not
   * blank, else NEXT_PUBLIC_VERCEL_URL likewise, else the local development
   * address. An unset variable is passed as "".
   */
  function SiteAddress(siteUrl: string, vercelUrl: string): string {
    if Trim(siteUrl) != [] then siteUrl
    else if Trim(vercelUrl) != [] then vercelUrl
    else LocalhostUrl
  }

  /** The site address without trailing slashes, with `https://` in front unless it mentions "http". */
  function SiteOrigin(siteUrl: string, vercelUrl: string): string {
    var url := StripTrailingSlashes(SiteAddress(siteUrl, vercelUrl));
    if Contains(url, "http") then url else "https://" + url
  }

  /** The address `getURL(path)` builds: the origin, one slash, the path without its leading slashes. */
  function UrlFor(path: string, siteUrl: string, vercelUrl: string): string {
    SiteOrigin(siteUrl, vercelUrl) + "/" + StripLeadingSlashes(path)
  }

  /** `getURL(path)` under the given environment, reassigning `url` and `path` as it goes. */
  method GetUrl(path: string, siteUrl: string, vercelUrl: string) returns (fullPath: string)
    ensures fullPath == UrlFor(path, siteUrl, vercelUrl)
  {
    var url := if Trim(siteUrl) != "" then siteUrl else if Trim(vercelUrl) != "" then vercelUrl else LocalhostUrl;
    url := StripTrailingSlashes(url);
    url := if Contains(url, "http") then url else "https://" + url;
    var path' := StripLeadingSlashes(path);
    fullPath := url + "/" + path';
  }

  /**
   * The result is an origin that mentions "http", one slash, and the path
   * without its leading slashes, so leading slashes on the path never double up.
   */
  lemma GetUrlJoinsWithOneSlash(path: string, siteUrl: string, vercelUrl: string)
    ensures var origin := SiteOrigin(siteUrl, vercelUrl);
            var rest := StripLeadingSlashes(path);
            && UrlFor(path, siteUrl, vercelUrl) == origin + "/" + rest
            && Contains(origin, "http")
            && (rest == [] || rest[0] != '/')
            && UrlFor("/" + path, siteUrl, vercelUrl) == UrlFor(path, siteUrl, vercelUrl)
  {
    var url := StripTrailingSlashes(SiteAddress(siteUrl, vercelUrl));
    if !Contains(url, "http") {
      assert "http" <= ("https://" + url)[0..];
    }
    assert ("/" + path)[1..] == path;
  }

  /** With neither variable set the site is the local development server. */
  lemma GetUrlDefaultsToLocalhost(path: string)
    ensures UrlFor(path, "", "") == LocalhostUrl + StripLeadingSlashes(path)
  {
    var url := "http://localhost:3000";
    assert Trim("") == [];
    assert LocalhostUrl == url + "/";
    assert LocalhostUrl[..|LocalhostUrl| - 1] == url;
    assert url[|url| - 1] == '0';
    assert StripTrailingSlashes(url) == url;
    assert StripTrailingSlashes(LocalhostUrl) == url;
    assert "http" <= url[0..];
    assert Contains(url, "http");
    assert SiteOrigin("", "") == url;
  }

  // ---------------------------------------------------------------------
  // commaSeparated
  // ---------------------------------------------------------------------

  /**
   * What `replace(/\B(?=(\d{3})+(?!\d))/g, ',')` makes of the digits `d[i..]`:
   * a comma goes before each digit that is not the first and is followed, up
   * to the end, by a positive multiple of three digits (itself included).
   */
  function CommasFrom(d: string, i: nat): string
    requires i <= |d|
    decreases |d| - i
  {
    if i == |d| then []
    else (if i > 0 && (|d| - i) % 3 == 0 then [','] else []) + [d[i]] + CommasFrom(d, i + 1)
  }

  /** `commaSeparated(value)` for a non-negative integer. */
  function CommaSeparated(value: nat): string {
    CommasFrom(NatToDecimal(value), 0)
  }

  /** Digits grouped in threes from the right, joined by commas. */
  function GroupThousands(d: string): string
    decreases |d|
  {
    if |d| <= 3 then d else GroupThousands(d[..|d| - 3]) + "," + d[|d| - 3..]
  }

  function RemoveCommas(s: string): string {
    if s == [] then [] else (if s[0] == ',' then [] else [s[0]]) + RemoveCommas(s[1..])
  }

  lemma {:induction false} NoCommasNearEnd(d: string, i: nat)
    requires i <= |d| && |d| - i <= 3 && (|d| - i == 3 ==> i == 0)
    ensures CommasFrom(d, i) == d[i..]
    decreases |d| - i
  {
    if i < |d| {
      NoCommasNearEnd(d, i + 1);
      assert d[i..] == [d[i]] + d[i + 1..];
    }
  }

  lemma {:induction false} CommasFromSplit(a: string, b: string, i: nat)
    requires |a| >= 1 && |b| == 3 && i <= |a|
    ensures CommasFrom(a + b, i) == CommasFrom(a, i) + "," + b
    decreases |a| - i
  {
    var d := a + b;
    if i == |a| {
      NoCommasNearEnd(d, i + 1);
      assert d[i + 1..] == b[1..];
      assert d[i] == b[0];
      assert CommasFrom(d, i) == [','] + [b[0]] + b[1..];
      assert CommasFrom(a, i) == [];
      assert b == [b[0]] + b[1..];
    } else {
      CommasFromSplit(a, b, i + 1);
      DivAddMultiple(|a| - i, 1, 3);
      assert (|d| - i) % 3 == (|a| - i) % 3;
      assert d[i] == a[i];
      var sep: string := if i > 0 && (|a| - i) % 3 == 0 then [','] else [];
      assert CommasFrom(d, i) == sep + [a[i]] + CommasFrom(d, i + 1);
      assert CommasFrom(a, i) == sep + [a[i]] + CommasFrom(a, i + 1);
    }
  }

  /** The regular expression groups digits in threes from the right. */
  lemma {:induction false} CommasGroupThousands(d: string)
    ensures CommasFrom(d, 0) == GroupThousands(d)
    decreases |d|
  {
    if |d| <= 3 {
      NoCommasNearEnd(d, 0);
    } else {
      var a, b := d[..|d| - 3], d[|d| - 3..];
      assert d == a + b;
      CommasFromSplit(a, b, 0);
      CommasGroupThousands(a);
    }
  }

  lemma {:induction false} RemoveCommasFrom(d: string, i: nat)
    requires i <= |d| && ',' !in d
    ensures RemoveCommas(CommasFrom(d, i)) == d[i..]
    decreases |d| - i
  {
    if i < |d| {
      RemoveCommasFrom(d, i + 1);
      var tail := [d[i]] + CommasFrom(d, i + 1);
      assert RemoveCommas(tail) == [d[i]] + RemoveCommas(CommasFrom(d, i + 1));
      if i > 0 && (|d| - i) % 3 == 0 {
        assert ([','] + tail)[1..] == tail;
      }
      assert d[i..] == [d[i]] + d[i + 1..];
    }
  }

  /**
   * `commaSeparated` groups the decimal digits of the value in threes from the
   * right, and dropping the commas gives back the digits, which denote the value.
   */
  lemma CommaSeparatedGroupsDigits(value: nat)
    ensures CommaSeparated(value) == GroupThousands(NatToDecimal(value))
    ensures RemoveCommas(CommaSeparated(value)) == NatToDecimal(value)
    ensures DecimalValue(RemoveCommas(CommaSeparated(value))) == value
  {
    var d := NatToDecimal(value);
    CommasGroupThousands(d);
    assert ',' !in d by {
      forall i | 0 <= i < |d| ensures d[i] != ',' {
        assert IsDigit(d[i]);
      }
    }
    RemoveCommasFrom(d, 0);
    DecimalRoundTrip(value);
  }

  // ---------------------------------------------------------------------
  // makeUrl
  // ---------------------------------------------------------------------

  /** The characters the regular-expression dot does not match. */
  predicate IsLineTerminator(c: char) {
    c == '\n' || c == '\r' || c as int == 0x2028 || c as int == 0x2029
  }

  /**
   * Where a placeholder opened at `s[0]` closes, searching from `i`: the lazy
   * `.*?` stops at the first `close` and cannot cross a line terminator.
   */
  function ClosingIndex(s: string, close: char, i: nat): (r: Option<nat>)
    requires 1 <= i <= |s|
    ensures r.Some? ==> i <= r.value < |s| && s[r.value] == close
    decreases |s| - i
  {
    if i == |s| then None
    else if s[i] == close then Some(i)
    else if IsLineTerminator(s[i]) then None
    else ClosingIndex(s, close, i + 1)
  }

  datatype Placeholder = Placeholder(key: string, length: nat)

  /**
   * The placeholder `[key]` or `{key}` at the start of `s`, if any, with the
   * key `data` is indexed by, `p1 || p2`: `[]` looks up "undefined" and `{}` looks up "".
   */
  function PlaceholderAt(s: string): (p: Option<Placeholder>)
    ensures p.Some? ==> 2 <= p.value.length <= |s|
  {
    if s != [] && (s[0] == '[' || s[0] == '{') then
      var close := if s[0] == '[' then ']' else '}';
      match ClosingIndex(s, close, 1)
      case None => None
      case Some(j) =>
        var inner := s[1..j];
        Some(Placeholder(if s[0] == '[' && inner == [] then "undefined" else inner, j + 1))
    else None
  }

  /** `data[key]` interpolated: "undefined" for a missing key. */
  function Lookup(data: map<string, string>, key: string): string {
    if key in data then data[key] else "undefined"
  }

  /** `makeUrl(url, data)`: every placeholder, scanning from the left, replaced by its value. */
  function MakeUrl(url: string, data: map<string, string>): string
    decreases |url|
  {
    if url == [] then []
    else
      match PlaceholderAt(url)
      case Some(p) => Lookup(data, p.key) + MakeUrl(url[p.length..], data)
      case None => [url[0]] + MakeUrl(url[1..], data)
  }

  /** Text with no opening bracket or brace passes through unchanged ahead of what follows. */
  lemma {:induction false} MakeUrlLiteralPrefix(a: string, b: string, data: map<string, string>)
    requires '[' !in a && '{' !in a
    ensures MakeUrl(a + b, data) == a + MakeUrl(b, data)
    decreases |a|
  {
    if a != [] {
      MakeUrlLiteralPrefix(a[1..], b, data);
      assert a[0] in a && (a + b)[0] == a[0];
      assert PlaceholderAt(a + b) == None;
      assert (a + b)[1..] == a[1..] + b;
      assert MakeUrl(a + b, data) == [a[0]] + MakeUrl(a[1..] + b, data);
      assert a == [a[0]] + a[1..];
    } else {
      assert a + b == b;
    }
  }

  /** A template with no opening bracket or brace is returned as it is. */
  lemma MakeUrlWithoutPlaceholders(url: string, data: map<string, string>)
    requires '[' !in url && '{' !in url
    ensures MakeUrl(url, data) == url
  {
    MakeUrlLiteralPrefix(url, [], data);
    assert url + [] == url;
  }

  lemma {:induction false} ClosingIndexFinds(s: string, close: char, i: nat, j: nat)
    requires 1 <= i <= j < |s| && s[j] == close
    requires forall k :: i <= k < j ==> s[k] != close && !IsLineTerminator(s[k])
    ensures ClosingIndex(s, close, i) == Some(j)
    decreases j - i
  {
    if i < j {
      ClosingIndexFinds(s, close, i + 1, j);
    }
  }

  /** A placeholder at the very start is replaced by its value. */
  lemma MakeUrlPlaceholderFirst(open: char, key: string, b: string, data: map<string, string>)
    requires open == '[' || open == '{'
    requires var close := if open == '[' then ']' else '}';
             close !in key && forall k :: 0 <= k < |key| ==> !IsLineTerminator(key[k])
    ensures var close := if open == '[' then ']' else '}';
            MakeUrl([open] + key + [close] + b, data)
            == Lookup(data, if open == '[' && key == [] then "undefined" else key) + MakeUrl(b, data)
  {
    var close := if open == '[' then ']' else '}';
    var s := [open] + key + [close] + b;
    forall k | 1 <= k < |key| + 1 ensures s[k] != close && !IsLineTerminator(s[k]) {
      assert s[k] == key[k - 1];
    }
    ClosingIndexFinds(s, close, 1, |key| + 1);
    assert s[1..|key| + 1] == key;
    assert s[|key| + 2..] == b;
  }

  /**
   * A placeholder whose key has no closing character and no line break is
   * replaced by the key's value; an empty `[]` looks up "undefined" and an
   * empty `{}` looks up "".
   */
  lemma MakeUrlSubstitutes(a: string, open: char, key: string, b: string, data: map<string, string>)
    requires '[' !in a && '{' !in a
    requires open == '[' || open == '{'
    requires var close := if open == '[' then ']' else '}';
             close !in key && forall k :: 0 <= k < |key| ==> !IsLineTerminator(key[k])
    ensures var close := if open == '[' then ']' else '}';
            MakeUrl(a + ([open] + key + [close] + b), data)
            == a + Lookup(data, if open == '[' && key == [] then "undefined" else key) + MakeUrl(b, data)
  {
    var close := if open == '[' then ']' else '}';
    MakeUrlPlaceholderFirst(open, key, b, data);
    MakeUrlLiteralThen(a, [open] + key + [close] + b, Lookup(data, if open == '[' && key == [] then "undefined" else key), MakeUrl(b, data), data);
  }

  lemma MakeUrlLiteralThen(a: string, s: string, value: string, rest: string, data: map<string, string>)
    requires '[' !in a && '{' !in a
    requires MakeUrl(s, data) == value + rest
    ensures MakeUrl(a + s, data) == a + value + rest
  {
    MakeUrlLiteralPrefix(a, s, data);
    assert a + (value + rest) == a + value + rest;
  }
}
