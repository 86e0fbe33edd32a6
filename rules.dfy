/** The rule batch `updateBlockingRules` hands to the browser's
    declarative request-blocking engine, and a model of what that engine
    does with a batch, so that the installed rule set can be reasoned about. */
module BlockingRules {
  import opened Common
  import opened JsString

  datatype Rule = Rule(id: int, priority: int, action: string, urlFilter: string, resourceTypes: seq<string>)

  /** The argument of `updateDynamicRules`. */
  datatype RuleUpdate = RuleUpdate(removeRuleIds: seq<int>, addRules: seq<Rule>)

  /** The filter `||site^`: the domain and all its subdomains. */
  function UrlFilter(site: string): string
  {
    "||" + site + "^"
  }

  /** Reads the site back out of a filter of the form `||site^`. */
  function FilterSite(filter: string): Option<string>
  {
    if |filter| >= 3 && filter[..2] == "||" && filter[|filter| - 1] == '^'
    then Some(filter[2..|filter| - 1])
    else None
  }

  lemma FilterRoundTrip(site: string)
    ensures FilterSite(UrlFilter(site)) == Some(site)
  {
    var f := UrlFilter(site);
    assert f[..2] == "||";
    assert f[2..|f| - 1] == site;
  }

  /** The rule for the site at position `i` of the list. */
  function BlockRule(site: string, i: nat): Rule
  {
    Rule(i + 1, 1, "block", UrlFilter(site), ["main_frame"])
  }

  /** `[1, 2, ..., n]`. */
  function IdRange(n: nat): (r: seq<int>)
    ensures |r| == n
    ensures forall i :: 0 <= i < n ==> r[i] == i + 1
  {
    if n == 0 then [] else IdRange(n - 1) + [n]
  }

  function BlockRules(sites: seq<string>): seq<Rule>
  {
    seq(|sites|, i requires 0 <= i < |sites| => BlockRule(sites[i], i))
  }

  /** What `updateBlockingRules` passes to the engine: it removes the ids of
      the current list and, when study mode is on, adds one rule per site in
      list order; when it is off, it adds nothing. */
  function RuleBatch(sites: seq<string>, studyMode: bool): (r: RuleUpdate)
    ensures |r.removeRuleIds| == |sites|
    ensures forall i :: 0 <= i < |sites| ==> r.removeRuleIds[i] == i + 1
    ensures !studyMode ==> r.addRules == []
    ensures studyMode ==> |r.addRules| == |sites|
    ensures studyMode ==> forall i :: 0 <= i < |sites| ==>
      && r.addRules[i].id == i + 1
      && r.addRules[i].priority == 1
      && r.addRules[i].action == "block"
      && r.addRules[i].urlFilter == "||" + sites[i] + "^"
      && r.addRules[i].resourceTypes == ["main_frame"]
  {
    RuleUpdate(IdRange(|sites|), if studyMode then BlockRules(sites) else [])
  }

  /** The sites a list of rules blocks, read back from their filters. */
  function RuleSites(rules: seq<Rule>): seq<Option<string>>
  {
    if rules == [] then [] else RuleSites(rules[..|rules| - 1]) + [FilterSite(rules[|rules| - 1].urlFilter)]
  }

  /** With study mode on, the batch blocks exactly the listed sites, in order. */
  lemma {:induction false} BatchBlocksListedSites(sites: seq<string>)
    ensures RuleSites(RuleBatch(sites, true).addRules) == seq(|sites|, i requires 0 <= i < |sites| => Some(sites[i]))
  {
    if sites != [] {
      var n := |sites| - 1;
      var init := sites[..n];
      BatchBlocksListedSites(init);
      assert BlockRules(sites)[..n] == BlockRules(init);
      FilterRoundTrip(sites[n]);
    }
  }

  /** Ids in the batch are distinct and every added id is also removed, so
      the engine never sees an id clash. */
  lemma BatchIdsDistinct(sites: seq<string>, studyMode: bool)
    ensures Distinct(RuleBatch(sites, studyMode).removeRuleIds)
    ensures forall i, j :: 0 <= i < j < |RuleBatch(sites, studyMode).addRules| ==>
      RuleBatch(sites, studyMode).addRules[i].id != RuleBatch(sites, studyMode).addRules[j].id
    ensures forall r :: r in RuleBatch(sites, studyMode).addRules ==> r.id in RuleBatch(sites, studyMode).removeRuleIds
  {
    var u := RuleBatch(sites, studyMode);
    forall r | r in u.addRules ensures r.id in u.removeRuleIds {
      var i :| 0 <= i < |u.addRules| && u.addRules[i] == r;
      assert u.removeRuleIds[i] == r.id;
    }
  }

  // ----- the rule engine -----

  /** The dynamic rules installed in the browser, by id. */
  type RuleSet = map<int, Rule>

  /** The rules of a list, keyed by id (a later rule wins on a repeated id). */
  function RulesById(rules: seq<Rule>): RuleSet
  {
    if rules == [] then map[]
    else RulesById(rules[..|rules| - 1])[rules[|rules| - 1].id := rules[|rules| - 1]]
  }

  /** The per-site rules, keyed by id, hold ids `1..|sites|`, rule `i + 1`
      being the one for site `i`. */
  lemma {:induction false} BlockRulesById(sites: seq<string>)
    ensures forall id :: id in RulesById(BlockRules(sites)) <==> 1 <= id <= |sites|
    ensures forall i :: 0 <= i < |sites| ==> RulesById(BlockRules(sites))[i + 1] == BlockRule(sites[i], i)
  {
    if sites != [] {
      var n := |sites| - 1;
      assert BlockRules(sites)[..n] == BlockRules(sites[..n]);
      BlockRulesById(sites[..n]);
      forall i | 0 <= i < n ensures sites[..n][i] == sites[i] { }
    }
  }

  /** A `urlFilter` the engine accepts: ASCII characters only, and not
      starting with `||*`. */
  predicate ValidFilter(f: string)
  {
    (forall i :: 0 <= i < |f| ==> f[i] as int < 128) && !StartsWith(f, "||*")
  }

  /** A site whose filter `||site^` the engine accepts. */
  predicate BlockableSite(site: string)
  {
    (forall i :: 0 <= i < |site| ==> site[i] as int < 128) && !(|site| > 0 && site[0] == '*')
  }

  predicate AllBlockable(sites: seq<string>)
  {
    forall site :: site in sites ==> BlockableSite(site)
  }

  /** The engine accepts the filter of a site exactly when the site is
      blockable. */
  lemma FilterValidIffBlockable(site: string)
    ensures ValidFilter(UrlFilter(site)) <==> BlockableSite(site)
  {
    var f := UrlFilter(site);
    assert |f| == |site| + 3;
    assert forall i :: 0 <= i < |site| ==> f[i + 2] == site[i];
    assert f[2] == if |site| > 0 then site[0] else '^';
    if BlockableSite(site) {
      forall i | 0 <= i < |f| ensures f[i] as int < 128 {
        if 2 <= i < |f| - 1 {
          assert f[i] == site[i - 2];
        }
      }
    }
  }

  /** The rules of a list with distinct ids, keyed by id: each rule under its
      own id, and no other key. */
  lemma {:induction false} RulesByIdContents(rules: seq<Rule>)
    requires forall i, j :: 0 <= i < j < |rules| ==> rules[i].id != rules[j].id
    ensures forall id :: id in RulesById(rules) <==> exists i :: 0 <= i < |rules| && rules[i].id == id
    ensures forall i :: 0 <= i < |rules| ==> RulesById(rules)[rules[i].id] == rules[i]
  {
    if rules != [] {
      var n := |rules| - 1;
      var init := rules[..n];
      RulesByIdContents(init);
      forall id | id in RulesById(rules) ensures exists i :: 0 <= i < |rules| && rules[i].id == id {
        if id != rules[n].id {
          assert RulesById(rules) == RulesById(init)[rules[n].id := rules[n]];
          assert id in RulesById(init);
          var i :| 0 <= i < |init| && init[i].id == id;
          assert rules[i].id == id;
        }
      }
      forall i | 0 <= i < |rules| ensures RulesById(rules)[rules[i].id] == rules[i] {
        if i < n {
          assert init[i] == rules[i];
        }
      }
    }
  }

  /** `updateDynamicRules`: remove the listed ids, then add the new rules.
      The engine rejects the whole batch (and changes nothing) when an added
      rule's filter is not valid, when an added id is still installed after
      the removal, or when an id occurs twice in the batch. An accepted batch
      keeps every installed rule it does not remove, installs every added
      rule under its id, and nothing else. */
  function ApplyUpdate(installed: RuleSet, u: RuleUpdate): (r: Option<RuleSet>)
    ensures r.None? <==>
      || (exists i :: 0 <= i < |u.addRules| && !ValidFilter(u.addRules[i].urlFilter))
      || (exists i :: 0 <= i < |u.addRules| && u.addRules[i].id in installed && u.addRules[i].id !in u.removeRuleIds)
      || (exists i, j :: 0 <= i < j < |u.addRules| && u.addRules[i].id == u.addRules[j].id)
    ensures r.Some? ==> forall id :: id in installed && id !in u.removeRuleIds ==>
      id in r.value && r.value[id] == installed[id]
    ensures r.Some? ==> forall i :: 0 <= i < |u.addRules| ==>
      u.addRules[i].id in r.value && r.value[u.addRules[i].id] == u.addRules[i]
    ensures r.Some? ==> forall id :: id in r.value ==>
      (id in installed && id !in u.removeRuleIds) || exists i :: 0 <= i < |u.addRules| && u.addRules[i].id == id
  {
    var kept := installed - (set i | i in u.removeRuleIds);
    if (exists i :: 0 <= i < |u.addRules| && !ValidFilter(u.addRules[i].urlFilter))
       || (exists i :: 0 <= i < |u.addRules| && u.addRules[i].id in kept)
       || (exists i, j :: 0 <= i < j < |u.addRules| && u.addRules[i].id == u.addRules[j].id)
    then None
    else
      RulesByIdContents(u.addRules);
      Some(kept + RulesById(u.addRules))
  }

  /** The rule set a list and a mode call for: rule `i + 1` blocks site `i`
      when study mode is on, nothing otherwise. */
  function Intended(sites: seq<string>, studyMode: bool): (r: RuleSet)
    ensures studyMode ==> forall id :: id in r <==> 1 <= id <= |sites|
    ensures studyMode ==> forall i :: 0 <= i < |sites| ==> r[i + 1] == BlockRule(sites[i], i)
    ensures !studyMode ==> r == map[]
  {
    BlockRulesById(sites);
    if studyMode then RulesById(BlockRules(sites)) else map[]
  }

  /** Ids `1..n`. */
  predicate IdsWithin(rs: RuleSet, n: int)
  {
    forall id :: id in rs ==> 1 <= id <= n
  }

  /** A batch whose removals cover every installed id and whose added ids
      are distinct installs exactly its added rules. */
  lemma ApplyClearing(installed: RuleSet, u: RuleUpdate)
    requires forall id :: id in installed ==> id in u.removeRuleIds
    requires forall i :: 0 <= i < |u.addRules| ==> ValidFilter(u.addRules[i].urlFilter)
    requires forall i, j :: 0 <= i < j < |u.addRules| ==> u.addRules[i].id != u.addRules[j].id
    ensures ApplyUpdate(installed, u) == Some(RulesById(u.addRules))
  {
    var removed := set i | i in u.removeRuleIds;
    var kept := installed - removed;
    forall id | id in installed ensures id in removed {
      assert id in u.removeRuleIds;
    }
    assert kept.Keys == {};
    assert kept == map[];
    assert map[] + RulesById(u.addRules) == RulesById(u.addRules);
  }

  /** The rules a batch adds for a list have valid filters exactly when
      every site of the list is blockable. */
  lemma BatchFiltersValid(sites: seq<string>)
    ensures (forall i :: 0 <= i < |sites| ==> ValidFilter(BlockRules(sites)[i].urlFilter)) <==> AllBlockable(sites)
  {
    forall i | 0 <= i < |sites| ensures ValidFilter(BlockRules(sites)[i].urlFilter) <==> BlockableSite(sites[i]) {
      FilterValidIffBlockable(sites[i]);
    }
  }

  /** Applied to rules whose ids all lie in `1..|sites|`, the batch as written
      installs exactly the intended rules, provided the engine accepts every
      site's filter (always, with study mode off). */
  lemma BatchInstallsIntended(installed: RuleSet, sites: seq<string>, studyMode: bool)
    requires IdsWithin(installed, |sites|)
    requires studyMode ==> AllBlockable(sites)
    ensures ApplyUpdate(installed, RuleBatch(sites, studyMode)) == Some(Intended(sites, studyMode))
  {
    var u := RuleBatch(sites, studyMode);
    BatchFiltersValid(sites);
    forall id | id in installed ensures id in u.removeRuleIds {
      assert u.removeRuleIds[id - 1] == id;
    }
    ApplyClearing(installed, u);
  }

  /** As written, the ids removed are those of the NEW list. After the list
      shrinks, the rule of a dropped site stays installed, even with study
      mode off: block a.com, b.com and c.com, remove c.com, turn study mode
      off, and c.com is still blocked. */
  lemma StaleRuleSurvives()
    ensures var before := Intended(["a.com", "b.com", "c.com"], true);
            ApplyUpdate(before, RuleBatch(["a.com", "b.com"], false))
            == Some(map[3 := BlockRule("c.com", 2)])
  {
    var sites := ["a.com", "b.com", "c.com"];
    var before := Intended(sites, true);
    var u := RuleBatch(["a.com", "b.com"], false);
    assert u.removeRuleIds == [1, 2];
    var removed := set i | i in u.removeRuleIds;
    assert removed == {1, 2};
    var kept := before - removed;
    assert kept.Keys == {3};
    assert kept[3] == BlockRule("c.com", 2);
    assert kept == map[3 := BlockRule("c.com", 2)];
    assert u.addRules == [];
    assert kept + RulesById(u.addRules) == kept;
  }

  /** The evidently intended batch: remove every id the previous list
      installed as well as those of the new list. */
  function ReplacingBatch(previousCount: nat, sites: seq<string>, studyMode: bool): (r: RuleUpdate)
    ensures r.addRules == RuleBatch(sites, studyMode).addRules
    ensures |r.removeRuleIds| == if previousCount < |sites| then |sites| else previousCount
    ensures forall i :: 0 <= i < |r.removeRuleIds| ==> r.removeRuleIds[i] == i + 1
  {
    RuleUpdate(IdRange(if previousCount < |sites| then |sites| else previousCount),
               RuleBatch(sites, studyMode).addRules)
  }

  /** Whatever rules the previous list left (ids `1..previousCount`), the
      corrected batch leaves exactly the intended rules, whose ids again lie
      in `1..|sites|`, so the property carries over to the next update. */
  lemma ReplacingBatchInstallsIntended(installed: RuleSet, previousCount: nat, sites: seq<string>, studyMode: bool)
    requires IdsWithin(installed, previousCount)
    requires studyMode ==> AllBlockable(sites)
    ensures ApplyUpdate(installed, ReplacingBatch(previousCount, sites, studyMode)) == Some(Intended(sites, studyMode))
    ensures IdsWithin(Intended(sites, studyMode), |sites|)
  {
    var u := ReplacingBatch(previousCount, sites, studyMode);
    BatchFiltersValid(sites);
    forall id | id in installed ensures id in u.removeRuleIds {
      assert u.removeRuleIds[id - 1] == id;
    }
    ApplyClearing(installed, u);
  }

  /** With study mode on, the engine accepts the batch, as written or
      corrected, exactly when every listed site is blockable: one site it
      refuses makes it drop the whole batch and keep the old rules. */
  lemma BatchAcceptedIffBlockable(installed: RuleSet, previousCount: nat, sites: seq<string>)
    requires IdsWithin(installed, previousCount)
    ensures ApplyUpdate(installed, ReplacingBatch(previousCount, sites, true)).Some? <==> AllBlockable(sites)
    ensures ApplyUpdate(installed, RuleBatch(sites, true)).Some? <==> AllBlockable(sites)
  {
    BatchFiltersValid(sites);
    if AllBlockable(sites) {
      ReplacingBatchInstallsIntended(installed, previousCount, sites, true);
    }
    AsWrittenAcceptedIffBlockable(installed, sites);
  }

  /** The as-written batch never clashes on ids, whatever is installed: it
      removes every id it adds. So only an unblockable site makes the engine
      refuse it. */
  lemma AsWrittenAcceptedIffBlockable(installed: RuleSet, sites: seq<string>)
    ensures ApplyUpdate(installed, RuleBatch(sites, true)).Some? <==> AllBlockable(sites)
  {
    var u := RuleBatch(sites, true);
    assert u.addRules == BlockRules(sites);
    BatchFiltersValid(sites);
    BatchIdsDistinct(sites, true);
    forall i | 0 <= i < |u.addRules| ensures u.addRules[i].id in u.removeRuleIds {
      assert u.removeRuleIds[i] == u.addRules[i].id;
    }
  }
}
