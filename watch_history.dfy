/** The `WatchHistory` model (app/Models/WatchHistory.php): the rows the
    streaming service appends, and the `mm:ss` rendering of a duration. */
module WatchHistory {
  import opened Base

  /** A `watch_history` row. `duration` is a nullable integer column, never
      set by `createEntry`; the device and address default to null. */
  datatype WatchEntry = WatchEntry(
    userId: nat,
    channelId: nat,
    watchedAt: Instant,
    duration: Option<int>,
    deviceInfo: Option<string>,
    ipAddress: Option<string>)

  /** The `watch_history` table, rows in insertion order. */
  class WatchHistoryLog {
    var entries: seq<WatchEntry>

    constructor ()
      ensures entries == []
    {
      entries := [];
    }

    /** `WatchHistory::createEntry(...)`: appends one row watched now, with
        no duration. */
    method CreateEntry(userId: nat, channelId: nat, deviceInfo: Option<string>, ipAddress: Option<string>, now: Instant)
      returns (e: WatchEntry)
      modifies this
      ensures e.userId == userId && e.channelId == channelId && e.watchedAt == now && e.duration == None
      ensures e.deviceInfo == deviceInfo && e.ipAddress == ipAddress
      ensures entries == old(entries) + [e]
    {
      e := WatchEntry(userId, channelId, now, None, deviceInfo, ipAddress);
      entries := entries + [e];
    }
  }

  // ---------------------------------------------------------------------
  // Decimal digits

  function DigitChar(d: nat): (c: char)
    requires d < 10
    ensures '0' <= c <= '9'
  {
    "0123456789"[d]
  }

  function DigitValue(c: char): (d: nat)
    requires '0' <= c <= '9'
    ensures d < 10 && DigitChar(d) == c
  {
    (c - '0') as nat
  }

  predicate IsDigits(s: string)
  {
    forall i :: 0 <= i < |s| ==> '0' <= s[i] <= '9'
  }

  /** `%d` of a non-negative integer: its decimal digits, no leading zero. */
  function Digits(n: nat): (s: string)
    ensures |s| >= 1 && IsDigits(s)
    ensures |s| == 1 <==> n < 10
    ensures n >= 100 ==> |s| >= 3
  {
    if n < 10 then [DigitChar(n)] else Digits(n / 10) + [DigitChar(n % 10)]
  }

  /** Reads a string of decimal digits back as a number. */
  function ParseDecimal(s: string): nat
    requires IsDigits(s)
  {
    if s == [] then 0 else ParseDecimal(s[..|s| - 1]) * 10 + DigitValue(s[|s| - 1])
  }

  /** Reading the digits of `n` gives `n` back. */
  lemma {:induction false} ParseDigits(n: nat)
    ensures ParseDecimal(Digits(n)) == n
  {
    var s := Digits(n);
    if n >= 10 {
      assert s[..|s| - 1] == Digits(n / 10);
      ParseDigits(n / 10);
    } else {
      assert s[..|s| - 1] == [];
    }
  }

  /** `sprintf('%02d', n)`: zero-padded to width two, never truncated; a
      negative value keeps its sign, which counts towards the width. */
  function Pad2(n: int): (s: string)
    ensures n >= 0 ==> |s| >= 2 && IsDigits(s)
    ensures 0 <= n < 100 ==> |s| == 2
    ensures n >= 100 ==> |s| >= 3
    ensures n < 0 ==> |s| >= 2 && s[0] == '-'
  {
    if n < 0 then "-" + Digits(-n)
    else if n < 10 then "0" + Digits(n)
    else Digits(n)
  }

  /** Reading a padded non-negative number gives it back. */
  lemma ParsePad2(n: nat)
    ensures ParseDecimal(Pad2(n)) == n
  {
    ParseDigits(n);
    if n < 10 {
      var s := Pad2(n);
      assert s[..1] == "0";
      assert ParseDecimal("0") == 0 by {
        assert "0"[..0] == [];
      }
      assert s[1] == Digits(n)[0];
      assert Digits(n)[..0] == [];
    }
  }

  /** PHP's `%` truncates: the remainder takes the sign of the dividend,
      and its magnitude is the remainder of the dividend's magnitude. */
  function PhpMod(a: int, b: int): (r: int)
    requires b > 0
    ensures a >= 0 ==> 0 <= r < b && r == a % b
    ensures a < 0 ==> -b < r <= 0 && -r == (-a) % b
  {
    if a >= 0 then a % b else -((-a) % b)
  }

  /** For the divisor the duration uses, the PHP remainder differs from the
      dividend by a whole number of minutes, whatever the dividend's sign. */
  lemma {:induction false} PhpModByMinute(a: int)
    ensures (a - PhpMod(a, 60)) % 60 == 0
  {
    if a < 0 {
      var q := (-a) / 60;
      assert -a == q * 60 + (-a) % 60;
      assert a - PhpMod(a, 60) == (-q) * 60;
    }
  }

  /** `sprintf('%02d:%02d', $minutes, $seconds)`. */
  function Render(minutes: int, seconds: int): (r: string)
    ensures |r| >= 5
    ensures 0 <= seconds < 100 ==> r[|r| - 3] == ':'
  {
    Pad2(minutes) + ":" + Pad2(seconds)
  }

  /** `getDurationForHumans()`: `floor(duration / 60)` minutes and
      `duration % 60` seconds, each through `%02d`, joined by a colon. A
      null duration counts as 0. */
  function DurationForHumans(duration: Option<int>): (r: string)
    ensures |r| >= 5
    ensures (duration.None? || duration.value >= 0) ==> r[|r| - 3] == ':'
  {
    var d := if duration.Some? then duration.value else 0;
    var minutes := d / 60;
    var seconds := PhpMod(d, 60);
    Render(minutes, seconds)
  }

  /** Joining two digit strings, the second of width two, puts the only
      colon three places from the end. */
  lemma JoinedFields(pm: string, ps: string)
    requires |ps| == 2
    requires IsDigits(pm) && IsDigits(ps)
    ensures var r := pm + ":" + ps;
      && r[..|r| - 3] == pm && r[|r| - 2..] == ps
      && forall i :: 0 <= i < |r| && i != |r| - 3 ==> r[i] != ':'
  {
    var r := pm + ":" + ps;
    forall i | 0 <= i < |r| && i != |r| - 3
      ensures r[i] != ':'
    {
      if i < |pm| {
        assert r[i] == pm[i];
      } else {
        assert r[i] == ps[i - |pm| - 1];
      }
    }
  }

  /** For a non-negative duration the text has exactly one colon, three
      places from the end: `<minutes>:<seconds>`. */
  lemma SingleColon(d: nat)
    ensures var r := DurationForHumans(Some(d));
      forall i :: 0 <= i < |r| && i != |r| - 3 ==> r[i] != ':'
  {
    JoinedFields(Pad2(d / 60), Pad2(d % 60));
  }

  /** The seconds field is two digits worth 0 to 59: the remainder. */
  lemma SecondsField(d: nat)
    ensures var r := DurationForHumans(Some(d));
      var ss := r[|r| - 2..];
      |ss| == 2 && IsDigits(ss) && ParseDecimal(ss) == d % 60 < 60
  {
    JoinedFields(Pad2(d / 60), Pad2(d % 60));
    ParsePad2(d % 60);
  }

  /** The minutes field has at least two digits and is worth the whole
      number of minutes, so it is never cut at 99. */
  lemma MinutesField(d: nat)
    ensures var r := DurationForHumans(Some(d));
      var mm := r[..|r| - 3];
      |mm| >= 2 && IsDigits(mm) && ParseDecimal(mm) == d / 60
  {
    JoinedFields(Pad2(d / 60), Pad2(d % 60));
    ParsePad2(d / 60);
  }

  /** Reading both fields back gives the duration: minutes times sixty plus
      seconds. */
  lemma {:induction false} DurationRoundTrip(d: nat)
    ensures var r := DurationForHumans(Some(d));
      IsDigits(r[..|r| - 3]) && IsDigits(r[|r| - 2..])
      && ParseDecimal(r[..|r| - 3]) * 60 + ParseDecimal(r[|r| - 2..]) == d
  {
    MinutesField(d);
    SecondsField(d);
    var r := DurationForHumans(Some(d));
    var m := ParseDecimal(r[..|r| - 3]);
    var sec := ParseDecimal(r[|r| - 2..]);
    assert m == d / 60 && sec == d % 60;
    assert (d / 60) * 60 + d % 60 == d;
  }

  /** A null duration and a zero duration both render as `00:00`. */
  lemma NullDurationIsZero()
    ensures DurationForHumans(None) == DurationForHumans(Some(0)) == "00:00"
  {
  }

  /** A negative duration carries a sign in both fields: half a minute
      before zero is minute -1 (the floor) and second -30 (PHP's remainder
      keeps the dividend's sign). */
  lemma NegativeDurationRendering()
    ensures DurationForHumans(Some(-30)) == "-1:-30"
  {
    assert PhpMod(-30, 60) == -30;
    assert Digits(30) == "30" by {
      assert Digits(3) == "3";
    }
  }

  /** One hundred minutes and more keep all their digits. */
  lemma LongDurationsAreNotTruncated(d: int)
    requires d >= 6000
    ensures |DurationForHumans(Some(d))| >= 6
  {
  }
}
