/**
 * The screenshot file name rule: `<prefix>_<timestamp>.png`, where the time
 * stamp is an ISO-8601 date string with every `:` and `.` turned into `-`,
 * its first `T` turned into `_`, and its last five characters (milliseconds
 * and the zone letter) cut off. The current time is a parameter.
 */
module Screenshot {
  import opened Wrappers
  import opened Lists

  const DefaultPrefix: string := "screenshot"

  /** `.replace(/[:.]/g, '-')`. */
  function DashForColonAndDot(s: string): (r: string)
    ensures |r| == |s|
    ensures forall i :: 0 <= i < |s| ==> r[i] == (if s[i] == ':' || s[i] == '.' then '-' else s[i])
  {
    if s == [] then []
    else [if s[0] == ':' || s[0] == '.' then '-' else s[0]] + DashForColonAndDot(s[1..])
  }

  /** `.replace(from, to)` with a one-character pattern: only the first occurrence changes. */
  function ReplaceFirst(s: string, from: char, to: char): (r: string)
    ensures from in s ==> r == s[IndexOf(s, from) := to]
    ensures from !in s ==> r == s
  {
    if s == [] then []
    else if s[0] == from then [to] + s[1..]
    else [s[0]] + ReplaceFirst(s[1..], from, to)
  }

  /**
   * `.slice(0, -n)` for a positive `n`: everything but the last `n`
   * characters, or nothing when the string is shorter. Only `n = 5` occurs;
   * JavaScript's `slice(0, -0)` would give the empty string instead.
   */
  function DropLast(s: string, n: nat): (r: string)
    ensures |r| == if |s| < n then 0 else |s| - n
    ensures r <= s
  {
    if |s| < n then [] else s[..|s| - n]
  }

  function Timestamp(iso: string): string {
    DropLast(ReplaceFirst(DashForColonAndDot(iso), 'T', '_'), 5)
  }

  /** `generateScreenshotFilename(prefix)`; `None` is the omitted argument. */
  function Filename(prefix: Option<string>, iso: string): string {
    prefix.GetOr(DefaultPrefix) + "_" + Timestamp(iso) + ".png"
  }

  /** Whatever the date string, the time stamp part holds no `:` and no `.`. */
  lemma TimestampHasNoColonOrDot(iso: string)
    ensures forall i :: 0 <= i < |Timestamp(iso)| ==> Timestamp(iso)[i] != ':' && Timestamp(iso)[i] != '.'
  {
    var dashed := DashForColonAndDot(iso);
    var replaced := ReplaceFirst(dashed, 'T', '_');
    forall i | 0 <= i < |replaced|
      ensures replaced[i] != ':' && replaced[i] != '.'
    {
      if 'T' in dashed && i == IndexOf(dashed, 'T') {
      } else {
        assert replaced[i] == dashed[i];
      }
    }
  }

  predicate Digits(s: string, from: nat, to: nat)
    requires from <= to <= |s|
  {
    forall i :: from <= i < to ==> '0' <= s[i] <= '9'
  }

  /** The 24-character shape `YYYY-MM-DDTHH:mm:ss.sssZ` that `Date.prototype.toISOString` yields for years 0 to 9999. */
  predicate IsIsoString(s: string) {
    && |s| == 24
    && Digits(s, 0, 4) && s[4] == '-' && Digits(s, 5, 7) && s[7] == '-' && Digits(s, 8, 10)
    && s[10] == 'T'
    && Digits(s, 11, 13) && s[13] == ':' && Digits(s, 14, 16) && s[16] == ':' && Digits(s, 17, 19)
    && s[19] == '.' && Digits(s, 20, 23) && s[23] == 'Z'
  }

  /** `YYYY-MM-DD_HH-mm-ss`, read off the date and time fields of an ISO string. */
  function IsoStamp(iso: string): string
    requires |iso| >= 19
  {
    iso[..10] + "_" + iso[11..13] + "-" + iso[14..16] + "-" + iso[17..19]
  }

  /** For an ISO string the time stamp is the 19 characters `YYYY-MM-DD_HH-mm-ss`. */
  lemma IsoTimestamp(iso: string)
    requires IsIsoString(iso)
    ensures Timestamp(iso) == IsoStamp(iso)
    ensures |Timestamp(iso)| == 19
  {
    var dashed := DashForColonAndDot(iso);
    assert forall i :: 0 <= i < 10 ==> dashed[i] == iso[i] && dashed[i] != 'T';
    assert dashed[10] == 'T';
    assert IndexOf(dashed, 'T') == 10 by {
      assert 'T' !in dashed[..10];
    }
    var replaced := ReplaceFirst(dashed, 'T', '_');
    assert replaced == dashed[10 := '_'];
    var expected := IsoStamp(iso);
    assert |Timestamp(iso)| == 19 == |expected|;
    forall i | 0 <= i < 19
      ensures Timestamp(iso)[i] == expected[i]
    {
      assert Timestamp(iso)[i] == replaced[i];
    }
  }

  /** For an ISO date the file name is `<prefix>_YYYY-MM-DD_HH-mm-ss.png`. */
  lemma FilenameOfIso(prefix: Option<string>, iso: string)
    requires IsIsoString(iso)
    ensures Filename(prefix, iso) == prefix.GetOr(DefaultPrefix) + "_" + IsoStamp(iso) + ".png"
    ensures |Filename(prefix, iso)| == |prefix.GetOr(DefaultPrefix)| + 24
  {
    IsoTimestamp(iso);
  }

  /** Without a prefix argument the name starts with `screenshot_`. */
  lemma DefaultFilename(iso: string)
    ensures Filename(None, iso)[..11] == "screenshot_"
  {
    var rest := Timestamp(iso) + ".png";
    assert Filename(None, iso) == DefaultPrefix + "_" + rest;
    assert (DefaultPrefix + "_" + rest)[..11] == DefaultPrefix + "_";
  }
}
