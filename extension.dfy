/** The popup and the background script together: each popup action sends
    its message, the background listener takes it, and the two copies of the
    block list and flag stay equal. Message delivery is taken as immediate
    and in order. */
module Extension {
  import opened Common
  import opened BlockingRules
  import opened Popup
  import opened Background
  import opened Insights

  /** Both scripts hold the same block list and flag. */
  predicate Mirrored(p: PopupState, b: BackgroundState)
    reads p, b
  {
    p.blockedSites == b.blockedSites && p.studyMode == b.studyMode
  }

  /** Start-up: both scripts read the same stored list and flag, so they
      begin mirrored, and the background installs the batch for them. */
  method Start(storedSites: Option<seq<string>>, storedMode: Option<bool>)
    returns (p: PopupState, b: BackgroundState, update: RuleUpdate)
    ensures Mirrored(p, b)
    ensures p.blockedSites == OrDefault(storedSites, DefaultSites)
    ensures p.studyMode == OrDefault(storedMode, false)
    ensures b.usageData == map[]
    ensures update == RuleBatch(b.blockedSites, b.studyMode)
  {
    p := new PopupState();
    p.LoadStored(storedSites, storedMode);
    b := new BackgroundState();
    update := b.LoadConfig(storedSites, storedMode);
  }

  /** Adding a site: when it is added, the background takes the new list and
      issues the one batch for it; otherwise nothing is sent. */
  method AddAndSync(p: PopupState, b: BackgroundState) returns (updates: seq<RuleUpdate>)
    requires Mirrored(p, b)
    modifies p, b
    ensures Mirrored(p, b)
    ensures p.blockedSites == SitesAfterAdd(old(p.blockedSites), old(p.blockInput))
    ensures p.studyMode == old(p.studyMode)
    ensures updates == if AddOutcomeOf(old(p.blockedSites), old(p.blockInput)) == Added
                       then [RuleBatch(b.blockedSites, b.studyMode)] else []
    ensures b.usageData == old(b.usageData)
  {
    var outcome, sent := p.AddSite();
    updates := [];
    if sent.Some? {
      var responses;
      updates, responses := b.OnMessage(sent.value);
    }
  }

  /** Removing a site: the background takes the new list and issues its batch. */
  method RemoveAndSync(p: PopupState, b: BackgroundState, index: int) returns (updates: seq<RuleUpdate>)
    requires Mirrored(p, b)
    modifies p, b
    ensures Mirrored(p, b)
    ensures p.blockedSites == SitesAfterRemove(old(p.blockedSites), index)
    ensures p.studyMode == old(p.studyMode)
    ensures updates == [RuleBatch(b.blockedSites, b.studyMode)]
    ensures b.usageData == old(b.usageData)
  {
    var sent := p.RemoveSite(index);
    var responses;
    updates, responses := b.OnMessage(sent);
  }

  /** The power button: the background takes the negated flag and issues the
      batch for it: every site's rule when it turns on, none when it turns off. */
  method ToggleAndSync(p: PopupState, b: BackgroundState) returns (updates: seq<RuleUpdate>)
    requires Mirrored(p, b)
    modifies p, b
    ensures Mirrored(p, b)
    ensures b.studyMode == !old(b.studyMode)
    ensures p.blockedSites == old(p.blockedSites)
    ensures updates == [RuleBatch(b.blockedSites, b.studyMode)]
    ensures b.usageData == old(b.usageData)
  {
    var sent := p.TogglePower();
    var responses;
    updates, responses := b.OnMessage(sent);
  }

  /** The insights tab: the query `{ getUsageData: true }` reaches the
      background listener, which changes nothing, answers with the one
      response holding its map, and the tab builds its report from that map
      (`keys` is the order `Object.entries` lists it in). */
  method QueryUsage(b: BackgroundState, keys: seq<string>)
    returns (updates: seq<RuleUpdate>, responses: seq<Response>, insights: Insights)
    requires Enumerates(keys, b.usageData)
    modifies b
    ensures b.blockedSites == old(b.blockedSites) && b.studyMode == old(b.studyMode)
    ensures b.usageData == old(b.usageData)
    ensures updates == []
    ensures responses == [UsageData(b.usageData)]
    ensures insights == LoadInsights(Some(b.usageData), keys)
    ensures insights != NoUsageData
  {
    updates, responses := b.OnMessage(UsageQuery);
    insights := LoadInsights(Some(responses[0].usageData), keys);
  }
}
