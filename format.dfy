/**
 * The display helpers of `format.js`: address shortening, thousands separators, truncation and
 * relative time. `null`/`undefined` arguments are `None`; the current time is a parameter.
 */
module Format {
  import opened Wrappers
  import opened JsText

  /** `s.slice(-n)` for `n > 0`: the last `n` characters, or all of `s` when it is shorter. */
  function LastChars(s: string, n: nat): (r: string)
    ensures |r| == if |s| < n then |s| else n
    ensures r == s[|s| - |r|..]
  {
    if |s| < n then s else s[|s| - n..]
  }

  /** `s.slice(0, n)` for `n >= 0`: the first `n` characters, or all of `s` when it is shorter. */
  function FirstChars(s: string, n: nat): (r: string)
    ensures |r| == if |s| < n then |s| else n
    ensures r == s[..|r|]
  {
    if |s| < n then s else s[..n]
  }

  /**
   * `formatAddress(address)`: `''` for a missing or empty address, otherwise its first six
   * characters, `...` and its last four.
   */
  function FormatAddress(address: Option<string>): (r: string)
    ensures address.None? || address.value == "" ==> r == ""
    ensures address.Some? && address.value != "" ==>
              r == FirstChars(address.value, 6) + "..." + LastChars(address.value, 4)
  {
    match address
    case None => ""
    case Some(s) => if s == "" then "" else FirstChars(s, 6) + "..." + LastChars(s, 4)
  }

  /**
   * An address of at least ten characters shortens to exactly thirteen: its own first six,
   * three dots and its own last four, so the two ends can be read back from the result.
   */
  lemma FormatAddressOfLongAddress(s: string)
    requires |s| >= 10
    ensures var r := FormatAddress(Some(s));
            |r| == 13 && r[..6] == s[..6] && r[6..9] == "..." && r[9..] == s[|s| - 4..]
  {
    var r := FormatAddress(Some(s));
    assert r == s[..6] + "..." + s[|s| - 4..];
  }

  /**
   * The regular-expression replace `/\B(?=(\d{3})+(?!\d))/g` on a run of digits: a comma before
   * every position that is not the first and has a multiple of three digits after it.
   */
  function GroupThousands(d: string): (r: string)
    ensures |d| <= |r|
    ensures |d| > 0 ==> r[0] == d[0]
    decreases |d|
  {
    if |d| <= 3 then d else GroupThousands(d[..|d| - 3]) + "," + d[|d| - 3..]
  }

  /** `s` without any occurrence of `c`. */
  function DropChar(s: string, c: char): (r: string)
    ensures c !in r
    ensures |r| <= |s|
  {
    if s == [] then [] else (if s[0] == c then [] else [s[0]]) + DropChar(s[1..], c)
  }

  lemma {:induction false} DropCharAppend(a: string, b: string, c: char)
    ensures DropChar(a + b, c) == DropChar(a, c) + DropChar(b, c)
  {
    if a != [] {
      assert (a + b)[1..] == a[1..] + b;
      DropCharAppend(a[1..], b, c);
    } else {
      assert a + b == b;
    }
  }

  lemma {:induction false} DropCharAbsent(s: string, c: char)
    requires c !in s
    ensures DropChar(s, c) == s
  {
    if s != [] {
      DropCharAbsent(s[1..], c);
      assert [s[0]] + s[1..] == s;
    }
  }

  /** Removing the separators from a grouped run gives back the run. */
  lemma {:induction false} DropCommasOfGroupThousands(d: string)
    requires ',' !in d
    ensures DropChar(GroupThousands(d), ',') == d
    decreases |d|
  {
    if |d| > 3 {
      var head, tail := d[..|d| - 3], d[|d| - 3..];
      var g := GroupThousands(head);
      assert ',' !in head && ',' !in tail;
      assert GroupThousands(d) == (g + ",") + tail;
      assert DropChar(g + ",", ',') == head by {
        DropCommasOfGroupThousands(head);
        DropCharAppend(g, ",", ',');
        assert DropChar(",", ',') == [];
      }
      assert DropChar(tail, ',') == tail by {
        DropCharAbsent(tail, ',');
      }
      DropCharAppend(g + ",", tail, ',');
      assert head + tail == d;
    } else {
      DropCharAbsent(d, ',');
    }
  }

  /** The groups of a grouped run: the first has one to three digits, every later one three. */
  lemma {:induction false} GroupSizes(d: string)
    requires |d| >= 1 && ',' !in d
    ensures var groups := Split(GroupThousands(d), ',');
            1 <= |groups[0]| <= 3 && forall i :: 1 <= i < |groups| ==> |groups[i]| == 3
    decreases |d|
  {
    if |d| <= 3 {
      SplitWithoutSeparator(d, ',');
    } else {
      var head, tail := d[..|d| - 3], d[|d| - 3..];
      GroupSizes(head);
      SplitAppend(GroupThousands(head), ',', tail);
      SplitWithoutSeparator(tail, ',');
      assert GroupThousands(d) == GroupThousands(head) + [','] + tail;
    }
  }

  /**
   * `formatNumber(num)`: `'0'` for a missing number, otherwise the decimal string of the
   * number with its digits grouped by three. The sign stays outside the grouping because
   * `\B` does not match between `-` and the first digit.
   */
  function FormatNumber(num: Option<int>): (r: string)
    ensures num.None? ==> r == "0"
    ensures num.Some? ==> |r| > 0 && (r[0] == '-' <==> num.value < 0)
  {
    match num
    case None => "0"
    case Some(n) =>
      var digits := NatToString(if n < 0 then -n else n);
      assert IsDigit(digits[0]) by { assert digits[0] in digits; }
      if n < 0 then "-" + GroupThousands(digits) else GroupThousands(digits)
  }

  /** `formatNumber` only inserts separators: without them its output is the number's decimal string. */
  lemma FormatNumberDigits(n: int)
    ensures DropChar(FormatNumber(Some(n)), ',') == IntToString(n)
  {
    var d := NatToString(if n < 0 then -n else n);
    assert ',' !in d;
    DropCommasOfGroupThousands(d);
    if n < 0 {
      DropCharAppend("-", GroupThousands(d), ',');
    }
  }

  /** The groups `formatNumber` shows for a natural number have sizes 1-3, 3, 3, … */
  lemma FormatNumberGroups(n: nat)
    ensures var groups := Split(FormatNumber(Some(n)), ',');
            1 <= |groups[0]| <= 3 && forall i :: 1 <= i < |groups| ==> |groups[i]| == 3
  {
    var d := NatToString(n);
    assert ',' !in d;
    GroupSizes(d);
  }

  /** A missing number and zero both show as `0`. */
  lemma FormatNumberOfZero()
    ensures FormatNumber(None) == "0" && FormatNumber(Some(0)) == "0"
  {
  }

  /**
   * `truncate(text, maxLength)`: a missing or empty text, or one no longer than `maxLength`,
   * comes back as it is; a longer one is cut with `slice(0, maxLength)` and gets `...`. A
   * negative `maxLength` counts from the end, as `slice` does.
   */
  function Truncate(text: Option<string>, maxLength: int): (r: Option<string>)
    ensures text.None? || text.value == "" || |text.value| <= maxLength ==> r == text
    ensures text.Some? && text.value != "" && |text.value| > maxLength ==>
              var keep := if maxLength >= 0 then maxLength else if |text.value| + maxLength >= 0 then |text.value| + maxLength else 0;
              r == Some(text.value[..keep] + "...")
  {
    match text
    case None => None
    case Some(t) =>
      if t == "" || |t| <= maxLength then text
      else if maxLength >= 0 then Some(t[..maxLength] + "...")
      else if |t| + maxLength >= 0 then Some(t[..|t| + maxLength] + "...")
      else Some(t[..0] + "...")
  }

  /** The default `maxLength`. */
  const DefaultTruncateLength: int := 100

  /** A cut text is a prefix of the original followed by `...`, at most `maxLength + 3` long. */
  lemma TruncateIsPrefix(t: string, maxLength: nat)
    requires |t| > maxLength
    ensures var r := Truncate(Some(t), maxLength).value;
            |r| == maxLength + 3 && r[..maxLength] == t[..maxLength] && r[maxLength..] == "..."
  {
  }

  /** Whole minutes, hours and days computed step by step equal those computed at once. */
  lemma NestedFloors(diff: int)
    ensures diff / 1000 / 60 == diff / 60_000
    ensures diff / 1000 / 60 / 60 == diff / 3_600_000
    ensures diff / 1000 / 60 / 60 / 24 == diff / 86_400_000
  {
  }

  /**
   * `formatRelativeTime(timestamp)` at time `now` (milliseconds): `''` for a missing or zero
   * timestamp; otherwise whole days, hours or minutes since the timestamp (seconds), the
   * first of them that is positive, or `刚刚` ("just now").
   */
  function FormatRelativeTime(timestamp: Option<int>, now: int): (r: string)
    ensures r == "" <==> timestamp.None? || timestamp.value == 0
  {
    if timestamp.None? || timestamp.value == 0 then ""
    else
      var diff := now - timestamp.value * 1000;
      var seconds := diff / 1000;
      var minutes := seconds / 60;
      var hours := minutes / 60;
      var days := hours / 24;
      if days > 0 then IntToString(days) + " 天前"
      else if hours > 0 then IntToString(hours) + " 小时前"
      else if minutes > 0 then IntToString(minutes) + " 分钟前"
      else "刚刚"
  }

  /**
   * The unit is picked by elapsed milliseconds: a day or more shows days, an hour or more
   * hours, a minute or more minutes, anything shorter, or a time in the future, `刚刚`; each
   * count is the elapsed time rounded down to that unit.
   */
  lemma FormatRelativeTimeUnits(timestamp: int, now: int)
    requires timestamp != 0
    ensures var diff := now - timestamp * 1000;
            var r := FormatRelativeTime(Some(timestamp), now);
            (diff >= 86_400_000 ==> r == IntToString(diff / 86_400_000) + " 天前") &&
            (3_600_000 <= diff < 86_400_000 ==> r == IntToString(diff / 3_600_000) + " 小时前") &&
            (60_000 <= diff < 3_600_000 ==> r == IntToString(diff / 60_000) + " 分钟前") &&
            (diff < 60_000 ==> r == "刚刚")
  {
    NestedFloors(now - timestamp * 1000);
  }

  /** A missing or zero timestamp shows nothing; a timestamp in the future shows `刚刚`. */
  lemma FormatRelativeTimeEdges(timestamp: int, now: int)
    ensures FormatRelativeTime(None, now) == "" && FormatRelativeTime(Some(0), now) == ""
    ensures timestamp != 0 && now < timestamp * 1000 ==> FormatRelativeTime(Some(timestamp), now) == "刚刚"
  {
    if timestamp != 0 && now < timestamp * 1000 {
      FormatRelativeTimeUnits(timestamp, now);
    }
  }
}
