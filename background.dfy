/** The background script: the block list and study-mode flag it mirrors
    from the popup, the usage map it keeps, and its listeners. Storage reads
    and writes, `chrome.tabs.get` and the rule engine call are foreign: their
    results are parameters, and the values handed to them are results. */
module Background {
  import opened Common
  import opened BlockingRules
  import opened UsageTracking

  /** The status the listener reports after taking a new flag. */
  function ModeStatus(mode: bool): string
  {
    if mode then "studyMode set to true" else "studyMode set to false"
  }

  class BackgroundState {
    var blockedSites: seq<string>
    var studyMode: bool
    var usageData: map<string, UsageRecord>

    /** The module-level state before either storage read has answered. */
    constructor ()
      ensures blockedSites == [] && !studyMode && usageData == map[]
    {
      blockedSites := [];
      studyMode := false;
      usageData := map[];
    }

    /** `updateBlockingRules`: the batch for the current list and flag. */
    method UpdateBlockingRules() returns (update: RuleUpdate)
      ensures update == RuleBatch(blockedSites, studyMode)
    {
      var removeRuleIds := IdRange(|blockedSites|);
      if !studyMode {
        return RuleUpdate(removeRuleIds, []);
      }
      var newRules := BlockRules(blockedSites);
      update := RuleUpdate(removeRuleIds, newRules);
    }

    /** The answer of the synchronised storage read at start-up: a missing
        list falls back to the four built-in sites (a stored empty list is
        kept), a missing flag to `false`; then the rules are updated. */
    method LoadConfig(storedSites: Option<seq<string>>, storedMode: Option<bool>) returns (update: RuleUpdate)
      modifies this
      ensures blockedSites == OrDefault(storedSites, DefaultSites)
      ensures studyMode == OrDefault(storedMode, false)
      ensures usageData == old(usageData)
      ensures update == RuleBatch(blockedSites, studyMode)
    {
      blockedSites := OrDefault(storedSites, DefaultSites);
      studyMode := OrDefault(storedMode, false);
      update := UpdateBlockingRules();
    }

    /** The answer of the local storage read at start-up. */
    method LoadUsage(stored: Option<map<string, UsageRecord>>)
      modifies this
      ensures usageData == OrDefault(stored, map[])
      ensures blockedSites == old(blockedSites) && studyMode == old(studyMode)
    {
      usageData := OrDefault(stored, map[]);
    }

    /** The `onMessage` listener. A present `blockedSites` array replaces the
        list and updates the rules with the flag as it then is; a boolean
        `studyMode` replaces the flag and updates the rules again; any other
        `studyMode` is ignored; a truthy `getUsageData` answers with the map.
        Every `sendResponse` call is listed in order (the browser delivers
        only the first). */
    method OnMessage(msg: Message) returns (updates: seq<RuleUpdate>, responses: seq<Response>)
      modifies this
      ensures blockedSites == OrDefault(msg.blockedSites, old(blockedSites))
      ensures studyMode == if msg.studyMode.Bool? then msg.studyMode.b else old(studyMode)
      ensures usageData == old(usageData)
      ensures updates ==
        (if msg.blockedSites.Some? then [RuleBatch(blockedSites, old(studyMode))] else [])
        + (if msg.studyMode.Bool? then [RuleBatch(blockedSites, studyMode)] else [])
      ensures responses ==
        (if msg.blockedSites.Some? then [Status("blockedSites updated")] else [])
        + (if msg.studyMode.Bool? then [Status(ModeStatus(studyMode))] else [])
        + (if Truthy(msg.getUsageData) then [UsageData(usageData)] else [])
    {
      updates, responses := [], [];
      if msg.blockedSites.Some? {
        blockedSites := msg.blockedSites.value;
        var u := UpdateBlockingRules();
        updates := updates + [u];
        responses := responses + [Status("blockedSites updated")];
      }
      if msg.studyMode.Bool? {
        studyMode := msg.studyMode.b;
        var u := UpdateBlockingRules();
        updates := updates + [u];
        responses := responses + [Status(ModeStatus(studyMode))];
      }
      if Truthy(msg.getUsageData) {
        responses := responses + [UsageData(usageData)];
      }
    }

    /** `trackSiteUsage`, given the parsed hostname (`None` when `new URL`
        throws, which the source catches and ignores). */
    method TrackSiteUsage(host: Option<string>, now: int)
      modifies this
      ensures usageData == Track(old(usageData), host, now)
      ensures blockedSites == old(blockedSites) && studyMode == old(studyMode)
    {
      if host.None? {
        return;
      }
      var hostname := HostKey(host.value);
      if hostname !in usageData {
        usageData := usageData[hostname := UsageRecord(0, now, None)];
      }
      usageData := usageData[hostname := usageData[hostname].(visits := usageData[hostname].visits + 1)];
      usageData := usageData[hostname := usageData[hostname].(lastVisit := now)];
    }

    /** The `onUpdated` listener, given the change's status, the tab's url
        and that url's parsed hostname. */
    method OnUpdated(status: Option<string>, url: Option<string>, host: Option<string>, now: int)
      modifies this
      ensures usageData == AfterUpdated(old(usageData), status, url, host, now)
      ensures blockedSites == old(blockedSites) && studyMode == old(studyMode)
    {
      if status == Some("complete") && TrackableUrl(url) {
        TrackSiteUsage(host, now);
      }
    }

    /** The `onActivated` listener, given the url of the tab
        `chrome.tabs.get` returned (`None` when it has none or the lookup
        failed) and that url's parsed hostname. */
    method OnActivated(url: Option<string>, host: Option<string>, now: int)
      modifies this
      ensures usageData == AfterActivated(old(usageData), url, host, now)
      ensures blockedSites == old(blockedSites) && studyMode == old(studyMode)
    {
      if TrackableUrl(url) {
        TrackSiteUsage(host, now);
      }
    }
  }
}
