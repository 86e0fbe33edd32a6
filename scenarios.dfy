/** Concrete examples of the model. */
module Scenarios {
  import opened Common
  import opened JsString
  import opened BlockingRules
  import opened Popup
  import opened UsageTracking
  import opened Insights

  /** A leading `www.` is cut. */
  lemma HostKeyLeading()
    ensures HostKey("www.example.com") == "example.com"
  {
    var h := "www.example.com";
    assert h[..4] == "www.";
    assert h[4..] == "example.com";
  }

  /** A hostname without `www.` is its own key. */
  lemma HostKeyWithout()
    ensures HostKey("example.com") == "example.com"
  {
    var h := "example.com";
    forall j ensures !MatchesAt(h, "www.", j) {
      if 0 <= j && j + 4 <= |h| {
        assert h[j..j + 4][0] == h[j];
      }
    }
    assert IndexOf(h, "www.").None?;
  }

  /** `www.` is cut where it first occurs, also inside the name. */
  lemma HostKeyInside()
    ensures HostKey("mywww.site.com") == "mysite.com"
  {
    var h := "mywww.site.com";
    assert h[0..4][0] == 'm';
    assert h[1..5][0] == 'y';
    assert MatchesAt(h, "www.", 2);
    assert IndexOf(h, "www.") == Some(2);
    assert h[..2] + h[6..] == "mysite.com";
  }

  /** Two loads of the same page count as two visits: nothing de-duplicates
      repeated events. */
  lemma RepeatedLoadCountsTwice()
    ensures var once := Track(map[], Some("www.example.com"), 1000);
            var twice := Track(once, Some("www.example.com"), 2000);
            twice == map["example.com" := UsageRecord(2, 2000, None)]
  {
    HostKeyLeading();
  }

  /** `{a.com: 5 visits, 2 min; b.com: 2 visits, 30 s}` listed b.com first:
      the report puts a.com first and totals 7 visits and 150000 ms. */
  lemma SummaryExample()
    ensures var a := UsageRecord(5, 0, Some(120000));
            var b := UsageRecord(2, 0, Some(30000));
            LoadInsights(Some(map["a.com" := a, "b.com" := b]), ["b.com", "a.com"])
            == Report(Summary([SiteStat("a.com", 5, 120000), SiteStat("b.com", 2, 30000)], 7, 150000, 2))
  {
    var a := UsageRecord(5, 0, Some(120000));
    var b := UsageRecord(2, 0, Some(30000));
    var usage := map["a.com" := a, "b.com" := b];
    var stats := Stats(usage, ["b.com", "a.com"]);
    assert stats == [SiteStat("b.com", 2, 30000), SiteStat("a.com", 5, 120000)];
    var sorted := [SiteStat("a.com", 5, 120000), SiteStat("b.com", 2, 30000)];
    assert SortByVisits(stats[1..]) == [SiteStat("a.com", 5, 120000)];
    assert SortByVisits(stats) == sorted;
    assert SumVisits(sorted) == 7 && SumTime(sorted) == 150000;
    assert sorted[..2] == sorted;
    assert Summarize(stats) == Summary(sorted, 7, 150000, 2);
  }

  /** `formatTime(150000)` is `"2m 30s"`. */
  lemma FormatTimeExample()
    ensures FormatTime(150000) == "2m 30s"
  {
    assert 150000 / 1000 == 150 && 150 / 60 == 2 && JsRem(150, 60) == 30;
    assert MinutesSeconds(150000) == (2, 30);
    assert NatToDecimal(3) == "3";
    assert NatToDecimal(30) == "30";
  }

  /** `bücher.de` has no surrounding whitespace ... */
  lemma UmlautTrimmed()
    ensures Trim("b\U{00FC}cher.de") == "b\U{00FC}cher.de"
  {
    var typed := "b\U{00FC}cher.de";
    assert typed[0] == 'b' && typed[|typed| - 1] == 'e';
    assert !IsJsWhitespace('b') && !IsJsWhitespace('e');
    TrimOfTrimmed(typed);
  }

  /** ... and no ASCII capital ... */
  lemma UmlautLowercase()
    ensures ToLower("b\U{00FC}cher.de") == "b\U{00FC}cher.de"
  {
    var typed := "b\U{00FC}cher.de";
    forall i | 0 <= i < |typed| ensures !IsAsciiUpper(typed[i]) {
      assert typed[i] in "b\U{00FC}cher.de";
    }
  }

  /** ... so `addSite` stores it as typed. */
  lemma UmlautSiteKept()
    ensures Normalize("b\U{00FC}cher.de") == "b\U{00FC}cher.de"
  {
    UmlautTrimmed();
    UmlautLowercase();
  }

  /** `addSite` keeps `bücher.de` as typed. Once it is in the list, turning
      study mode on sends a batch that the engine refuses as a whole, so
      none of the five listed sites is blocked. */
  lemma UnblockableSiteBlocksNothing()
    ensures var sites := SitesAfterAdd(DefaultSites, "b\U{00FC}cher.de");
            && sites == DefaultSites + ["b\U{00FC}cher.de"]
            && ApplyUpdate(map[], RuleBatch(sites, true)) == None
  {
    var typed := "b\U{00FC}cher.de";
    UmlautSiteKept();
    assert typed !in DefaultSites;
    var sites := DefaultSites + [typed];
    assert typed in sites && !BlockableSite(typed) by {
      assert typed[1] as int == 252;
    }
    BatchAcceptedIffBlockable(map[], 0, sites);
  }
}
