/** What `trackSiteUsage` does to the hostname-keyed usage map, and which
    tab events reach it. The hostname `new URL(url).hostname` comes from the
    browser's URL parser and is an input here: `None` when the parser throws. */
module UsageTracking {
  import opened Common
  import opened JsString

  /** The map key: the hostname with the FIRST occurrence of `"www."`
      removed, wherever it stands. */
  function HostKey(hostname: string): (r: string)
    ensures IndexOf(hostname, "www.").None? ==> r == hostname
    ensures IndexOf(hostname, "www.").Some? ==>
      var i := IndexOf(hostname, "www.").value;
      && |r| == |hostname| - 4
      && r[..i] == hostname[..i]
      && r[i..] == hostname[i + 4..]
    ensures StartsWith(hostname, "www.") ==> r == hostname[4..]
  {
    assert StartsWith(hostname, "www.") ==> MatchesAt(hostname, "www.", 0);
    ReplaceFirst(hostname, "www.", "")
  }

  /** The map after one call of `trackSiteUsage` with parsed hostname `host`
      at time `now`. */
  function Track(usage: map<string, UsageRecord>, host: Option<string>, now: int): (r: map<string, UsageRecord>)
    ensures host.None? ==> r == usage
    ensures host.Some? ==> r.Keys == usage.Keys + {HostKey(host.value)}
    ensures host.Some? && HostKey(host.value) !in usage ==>
      r[HostKey(host.value)] == UsageRecord(1, now, None)
    ensures host.Some? && HostKey(host.value) in usage ==>
      r[HostKey(host.value)] == usage[HostKey(host.value)].(visits := usage[HostKey(host.value)].visits + 1, lastVisit := now)
    ensures host.Some? ==> forall k :: k in usage && k != HostKey(host.value) ==> r[k] == usage[k]
  {
    match host
    case None => usage
    case Some(h) =>
      var key := HostKey(h);
      var created := if key in usage then usage else usage[key := UsageRecord(0, now, None)];
      created[key := created[key].(visits := created[key].visits + 1, lastVisit := now)]
  }

  /** Tracking never writes `totalTime`: a map in which no record carries it
      keeps that property. */
  predicate Untimed(usage: map<string, UsageRecord>)
  {
    forall k :: k in usage ==> usage[k].totalTime.None?
  }

  /** Every record holds at least one visit. */
  predicate Visited(usage: map<string, UsageRecord>)
  {
    forall k :: k in usage ==> usage[k].visits >= 1
  }

  lemma TrackPreservesInvariants(usage: map<string, UsageRecord>, host: Option<string>, now: int)
    ensures Untimed(usage) ==> Untimed(Track(usage, host, now))
    ensures Visited(usage) ==> Visited(Track(usage, host, now))
  {
  }

  /** One qualifying event: a parsed hostname and the time it was seen. */
  datatype Visit = Visit(host: string, at: int)

  /** The map after a run of qualifying events, in order. */
  function TrackAll(usage: map<string, UsageRecord>, visits: seq<Visit>): map<string, UsageRecord>
    decreases |visits|
  {
    if visits == [] then usage
    else TrackAll(Track(usage, Some(visits[0].host), visits[0].at), visits[1..])
  }

  /** The number of events whose key is `key`. */
  function CountFor(visits: seq<Visit>, key: string): nat
  {
    if visits == [] then 0
    else (if HostKey(visits[0].host) == key then 1 else 0) + CountFor(visits[1..], key)
  }

  function VisitsOf(usage: map<string, UsageRecord>, key: string): int
  {
    if key in usage then usage[key].visits else 0
  }

  /** There is no de-duplication: after any run of events, a key's visit
      count has grown by exactly the number of events for that key, the key
      is present exactly when it was before or some event named it, and a
      record no event named is left as it was. */
  lemma {:induction false} TrackAllCounts(usage: map<string, UsageRecord>, visits: seq<Visit>, key: string)
    ensures VisitsOf(TrackAll(usage, visits), key) == VisitsOf(usage, key) + CountFor(visits, key)
    ensures key in TrackAll(usage, visits) <==> key in usage || CountFor(visits, key) > 0
    ensures CountFor(visits, key) == 0 && key in usage ==> TrackAll(usage, visits)[key] == usage[key]
    decreases |visits|
  {
    if visits != [] {
      TrackAllCounts(Track(usage, Some(visits[0].host), visits[0].at), visits[1..], key);
    }
  }

  /** `tab.url && !tab.url.startsWith("chrome://")`; `None` is an absent url. */
  predicate TrackableUrl(url: Option<string>)
  {
    url.Some? && url.value != "" && !StartsWith(url.value, "chrome://")
  }

  /** The `onUpdated` listener: tracks only a completed load of a trackable url. */
  function AfterUpdated(usage: map<string, UsageRecord>, status: Option<string>, url: Option<string>,
                        host: Option<string>, now: int): (r: map<string, UsageRecord>)
    ensures r != usage ==> status == Some("complete") && url.Some? && url.value != ""
    ensures r != usage ==> !StartsWith(url.value, "chrome://")
    ensures status == Some("complete") && TrackableUrl(url) ==> r == Track(usage, host, now)
  {
    if status == Some("complete") && TrackableUrl(url) then Track(usage, host, now) else usage
  }

  /** The `onActivated` listener: tracks a trackable url whatever its load state. */
  function AfterActivated(usage: map<string, UsageRecord>, url: Option<string>,
                          host: Option<string>, now: int): (r: map<string, UsageRecord>)
    ensures r != usage ==> url.Some? && url.value != "" && !StartsWith(url.value, "chrome://")
    ensures TrackableUrl(url) ==> r == Track(usage, host, now)
  {
    if TrackableUrl(url) then Track(usage, host, now) else usage
  }
}
