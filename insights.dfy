/** The pure part of the popup's `loadUsageData`: the usage map turned into
    an array of `{site, visits, totalTime}`, sorted by visits (most first),
    the top five, the totals, and `formatTime`. Building the HTML is left out. */
module Insights {
  import opened Common
  import opened JsString
  import opened UsageTracking

  datatype SiteStat = SiteStat(site: string, visits: int, totalTime: int)

  /** `keys` is an order `Object.entries` may list the map in: every key
      once. */
  predicate Enumerates(keys: seq<string>, usage: map<string, UsageRecord>)
  {
    && Distinct(keys)
    && (forall k :: k in keys ==> k in usage)
    && (forall k :: k in usage ==> k in keys)
  }

  /** `{ site, visits: data.visits, totalTime: data.totalTime || 0 }`: a
      record without a time counts as 0 ms. */
  function ToStat(site: string, data: UsageRecord): (r: SiteStat)
    ensures r.site == site && r.visits == data.visits
    ensures data.totalTime.None? ==> r.totalTime == 0
    ensures data.totalTime.Some? ==> r.totalTime == data.totalTime.value
  {
    SiteStat(site, data.visits, OrDefault(data.totalTime, 0))
  }

  /** The entries of the map in the order `keys`, mapped to `SiteStat`s. */
  function Stats(usage: map<string, UsageRecord>, keys: seq<string>): (r: seq<SiteStat>)
    requires forall k :: k in keys ==> k in usage
    ensures |r| == |keys|
    ensures forall i :: 0 <= i < |keys| ==> r[i].site == keys[i] && r[i].visits == usage[keys[i]].visits
    ensures forall i :: 0 <= i < |keys| ==> r[i] == ToStat(keys[i], usage[keys[i]])
  {
    seq(|keys|, i requires 0 <= i < |keys| => ToStat(keys[i], usage[keys[i]]))
  }

  // ----- sorting by visits, most first -----

  predicate SortedByVisits(s: seq<SiteStat>)
  {
    forall i, j :: 0 <= i < j < |s| ==> s[i].visits >= s[j].visits
  }

  /** Places `x` before the first entry with fewer visits. */
  function Insert(x: SiteStat, t: seq<SiteStat>): (r: seq<SiteStat>)
    ensures multiset(r) == multiset(t) + multiset{x}
  {
    if t == [] || x.visits >= t[0].visits then [x] + t
    else
      assert t == [t[0]] + t[1..];
      [t[0]] + Insert(x, t[1..])
  }

  /** Inserting into a sorted list keeps it sorted. */
  lemma {:induction false} InsertSorted(x: SiteStat, t: seq<SiteStat>)
    requires SortedByVisits(t)
    ensures SortedByVisits(Insert(x, t))
  {
    if t != [] && x.visits < t[0].visits {
      var rest := Insert(x, t[1..]);
      InsertSorted(x, t[1..]);
      forall i | 0 <= i < |rest| ensures rest[i].visits <= t[0].visits {
        assert rest[i] in multiset(rest);
        if rest[i] != x {
          assert rest[i] in multiset(t[1..]);
          var j :| 0 <= j < |t[1..]| && t[1..][j] == rest[i];
          assert t[j + 1] == rest[i];
        }
      }
      assert Insert(x, t) == [t[0]] + rest;
    }
  }

  /** `.sort((a, b) => b.visits - a.visits)`: the stable sort keeps entries
      with equal visits in their original order, as insertion does here. */
  function SortByVisits(s: seq<SiteStat>): (r: seq<SiteStat>)
    ensures SortedByVisits(r)
    ensures multiset(r) == multiset(s)
    ensures |r| == |s|
  {
    if s == [] then []
    else
      assert s == [s[0]] + s[1..];
      InsertSorted(s[0], SortByVisits(s[1..]));
      Insert(s[0], SortByVisits(s[1..]))
  }

  // ----- totals -----

  /** `reduce((sum, x) => sum + x.visits, 0)`. */
  function SumVisits(s: seq<SiteStat>): int
  {
    if s == [] then 0 else s[0].visits + SumVisits(s[1..])
  }

  /** `reduce((sum, x) => sum + x.totalTime, 0)`. */
  function SumTime(s: seq<SiteStat>): int
  {
    if s == [] then 0 else s[0].totalTime + SumTime(s[1..])
  }

  lemma {:induction false} SumsOfInsert(x: SiteStat, t: seq<SiteStat>)
    ensures SumVisits(Insert(x, t)) == x.visits + SumVisits(t)
    ensures SumTime(Insert(x, t)) == x.totalTime + SumTime(t)
  {
    if t != [] && x.visits < t[0].visits {
      SumsOfInsert(x, t[1..]);
      assert Insert(x, t)[1..] == Insert(x, t[1..]);
    }
  }

  /** Sorting moves entries around but keeps both totals. */
  lemma {:induction false} SumsOfSort(s: seq<SiteStat>)
    ensures SumVisits(SortByVisits(s)) == SumVisits(s)
    ensures SumTime(SortByVisits(s)) == SumTime(s)
  {
    if s != [] {
      SumsOfSort(s[1..]);
      SumsOfInsert(s[0], SortByVisits(s[1..]));
    }
  }

  // ----- the report -----

  datatype Summary = Summary(top: seq<SiteStat>, totalVisits: int, totalTimeSpent: int, uniqueSites: nat)

  /** In a sorted list no entry outside the first `n` has more visits
      than one of them. */
  lemma PrefixDominates(s: seq<SiteStat>, n: nat)
    requires SortedByVisits(s) && n <= |s|
    ensures forall x, y :: x in s && x !in s[..n] && y in s[..n] ==> x.visits <= y.visits
  {
    forall x, y | x in s && x !in s[..n] && y in s[..n] ensures x.visits <= y.visits {
      var j :| 0 <= j < |s| && s[j] == x;
      var i :| 0 <= i < n && s[..n][i] == y;
      assert s[i] == y;
    }
  }

  /** The first `n` of a sorted permutation of `stats`: sorted, drawn from
      `stats`, and no entry of `stats` outside them has more visits. */
  lemma TopOfSorted(stats: seq<SiteStat>, sorted: seq<SiteStat>, n: nat)
    requires SortedByVisits(sorted) && multiset(sorted) == multiset(stats) && n <= |sorted|
    ensures SortedByVisits(sorted[..n])
    ensures multiset(sorted[..n]) <= multiset(stats)
    ensures forall x, y :: x in stats && x !in sorted[..n] && y in sorted[..n] ==> x.visits <= y.visits
  {
    PrefixDominates(sorted, n);
    assert sorted == sorted[..n] + sorted[n..];
    forall x | x in stats ensures x in sorted {
      assert x in multiset(stats);
    }
  }

  /** The report over the entries: the five most visited (all of them when
      fewer), most first, and no entry left out has more visits than one
      shown; the totals and the count cover every entry. */
  function Summarize(stats: seq<SiteStat>): (r: Summary)
    ensures |r.top| == if |stats| < 5 then |stats| else 5
    ensures SortedByVisits(r.top)
    ensures multiset(r.top) <= multiset(stats)
    ensures forall x, y :: x in stats && x !in r.top && y in r.top ==> x.visits <= y.visits
    ensures r.totalVisits == SumVisits(stats)
    ensures r.totalTimeSpent == SumTime(stats)
    ensures r.uniqueSites == |stats|
  {
    var sitesArray := SortByVisits(stats);
    var n := if |sitesArray| < 5 then |sitesArray| else 5;
    TopOfSorted(stats, sitesArray, n);
    SumsOfSort(stats);
    Summary(sitesArray[..n], SumVisits(sitesArray), SumTime(sitesArray), |sitesArray|)
  }

  /** What the insights tab shows. */
  datatype Insights = NoUsageData | NoSitesTracked | Report(summary: Summary)

  lemma {:induction false} DistinctCard(keys: seq<string>)
    requires Distinct(keys)
    ensures |set k | k in keys| == |keys|
  {
    if keys != [] {
      var n := |keys| - 1;
      DistinctCard(keys[..n]);
      assert (set k | k in keys) == (set k | k in keys[..n]) + {keys[n]};
      assert keys[n] !in keys[..n];
    }
  }

  /** The callback of the usage query: no response means no data; an empty
      map means nothing tracked yet; otherwise the report over every entry. */
  function LoadInsights(response: Option<map<string, UsageRecord>>, keys: seq<string>): (r: Insights)
    requires response.Some? ==> Enumerates(keys, response.value)
    ensures r == NoUsageData <==> response.None?
    ensures r == NoSitesTracked <==> response.Some? && response.value == map[]
    ensures r.Report? ==> r.summary.uniqueSites == |response.value|
    ensures r.Report? ==> r.summary == Summarize(Stats(response.value, keys))
  {
    match response
    case None => NoUsageData
    case Some(usage) =>
      var stats := Stats(usage, keys);
      DistinctCard(keys);
      assert usage.Keys == set k | k in keys;
      if stats == [] then
        assert usage.Keys == {};
        NoSitesTracked
      else
        assert keys[0] in usage;
        Report(Summarize(stats))
  }

  /** The background script never writes `totalTime`, so over a map it
      built, the time spent reads as zero. */
  lemma UntimedSpendsNoTime(usage: map<string, UsageRecord>, keys: seq<string>)
    requires Enumerates(keys, usage) && Untimed(usage)
    ensures SumTime(Stats(usage, keys)) == 0
  {
    var s := Stats(usage, keys);
    forall i | 0 <= i < |s| ensures s[i].totalTime == 0 {
      assert keys[i] in usage;
    }
    ZeroTimes(s);
  }

  lemma {:induction false} ZeroTimes(s: seq<SiteStat>)
    requires forall i :: 0 <= i < |s| ==> s[i].totalTime == 0
    ensures SumTime(s) == 0
  {
    if s != [] {
      ZeroTimes(s[1..]);
    }
  }

  // ----- formatTime -----

  /** JavaScript's `%`: the remainder takes the sign of the dividend. */
  function JsRem(a: int, b: int): (r: int)
    requires b > 0
    ensures a >= 0 ==> 0 <= r < b
    ensures a < 0 ==> -b < r <= 0
    ensures a - r == b * (if a >= 0 then a / b else -((-a) / b))
  {
    if a >= 0 then a % b else -((-a) % b)
  }

  /** `Math.floor(ms / 1000)` split into `Math.floor(totalSeconds / 60)`
      minutes and `totalSeconds % 60` seconds (Dafny's `/` by a positive
      divisor is the floor). For `ms >= 0` the seconds are below 60 and
      minutes and seconds are the whole seconds in `ms`. */
  function MinutesSeconds(ms: int): (r: (int, int))
    ensures ms >= 0 ==> r.0 >= 0 && 0 <= r.1 < 60
    ensures ms >= 0 ==> (r.0 * 60 + r.1) * 1000 <= ms < (r.0 * 60 + r.1 + 1) * 1000
    ensures ms < 0 ==> r.0 < 0 && -60 < r.1 <= 0
  {
    var totalSeconds := ms / 1000;
    (totalSeconds / 60, JsRem(totalSeconds, 60))
  }

  predicate IsDigit(c: char)
  {
    '0' <= c <= '9'
  }

  predicate AllDigits(s: string)
  {
    forall i :: 0 <= i < |s| ==> IsDigit(s[i])
  }

  /** The number a string of decimal digits denotes. */
  function DecimalValue(s: string): nat
    requires AllDigits(s)
  {
    if s == [] then 0 else DecimalValue(s[..|s| - 1]) * 10 + (s[|s| - 1] as int - '0' as int)
  }

  /** The decimal digits of `n` without leading zeros, as `${n}` writes them. */
  function NatToDecimal(n: nat): (r: string)
    ensures |r| >= 1 && AllDigits(r)
    ensures |r| > 1 ==> r[0] != '0'
    ensures DecimalValue(r) == n
  {
    var digit := ('0' as int + n % 10) as char;
    if n < 10 then [digit]
    else
      var r := NatToDecimal(n / 10) + [digit];
      assert r[..|r| - 1] == NatToDecimal(n / 10);
      r
  }

  /** `${i}` for an integer. */
  function IntToString(i: int): string
  {
    if i < 0 then "-" + NatToDecimal(-i) else NatToDecimal(i)
  }

  /** `formatTime(ms)`: `"<minutes>m <seconds>s"`. */
  function FormatTime(ms: int): string
  {
    var (minutes, seconds) := MinutesSeconds(ms);
    IntToString(minutes) + "m " + IntToString(seconds) + "s"
  }

  /** Reads `"<digits>m <digits>s"` back into minutes and seconds. */
  function ParseTime(text: string): Option<(int, int)>
  {
    match IndexOf(text, "m ")
    case None => None
    case Some(i) =>
      if i + 3 <= |text| && text[|text| - 1] == 's' && AllDigits(text[..i]) && AllDigits(text[i + 2..|text| - 1])
      then Some((DecimalValue(text[..i]), DecimalValue(text[i + 2..|text| - 1])))
      else None
  }

  /** For a non-negative duration the text `formatTime` writes determines its
      minutes and seconds. */
  lemma FormatTimeRoundTrip(ms: int)
    requires ms >= 0
    ensures ParseTime(FormatTime(ms)) == Some(MinutesSeconds(ms))
  {
    var (minutes, seconds) := MinutesSeconds(ms);
    var a, b := NatToDecimal(minutes), NatToDecimal(seconds);
    var text := FormatTime(ms);
    var tail := "m " + b + "s";
    assert text == a + tail;
    assert text[..|a|] == a && text[|a|..] == tail;
    assert MatchesAt(text, "m ", |a|) by {
      assert text[|a|..|a| + 2] == tail[..2] == "m ";
    }
    forall j | 0 <= j < |a| ensures !MatchesAt(text, "m ", j) {
      assert text[j] == a[j] && IsDigit(a[j]);
      if j + 2 <= |text| {
        assert text[j..j + 2][0] == text[j];
      }
    }
    var i := IndexOf(text, "m ").value;
    assert i == |a|;
    assert text[..i] == a;
    assert text[i + 2..|text| - 1] == b;
  }
}
