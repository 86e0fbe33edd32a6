/** The popup's block-list editor: the list of blocked sites, the
    study-mode flag and the text box new sites are typed into. Rendering,
    `alert` and storage writes are left to the browser; each operation
    returns the message it hands to `chrome.runtime.sendMessage`. */
module Popup {
  import opened Common
  import opened JsString
  import opened BlockingRules

  /** `blockInput.value.trim().toLowerCase()`: empty exactly for a blank
      input, no longer than it, and without ASCII capitals. */
  function Normalize(input: string): (r: string)
    ensures |r| == |Trim(input)| && forall i :: 0 <= i < |r| ==> r[i] == LowerChar(Trim(input)[i])
    ensures r == [] <==> forall i :: 0 <= i < |input| ==> IsJsWhitespace(input[i])
    ensures |r| <= |input|
    ensures forall i :: 0 <= i < |r| ==> !IsAsciiUpper(r[i])
  {
    ToLower(Trim(input))
  }

  /** A string with no whitespace at either end is its own trim. */
  lemma TrimOfTrimmed(t: string)
    requires t == [] || (!IsJsWhitespace(t[0]) && !IsJsWhitespace(t[|t| - 1]))
    ensures Trim(t) == t
  {
  }

  /** Lower-casing an already lower-cased string changes nothing. */
  lemma LowerIdempotent(t: string)
    ensures ToLower(ToLower(t)) == ToLower(t)
  {
  }

  /** Normalising a normalised site gives it back, so a stored site typed
      again is caught by the duplicate check. */
  lemma NormalizeIdempotent(input: string)
    ensures Normalize(Normalize(input)) == Normalize(input)
  {
    var t := Trim(input);
    var n := ToLower(t);
    if t != [] {
      assert n[0] == LowerChar(t[0]) && n[|n| - 1] == LowerChar(t[|t| - 1]);
    }
    TrimOfTrimmed(n);
    LowerIdempotent(t);
  }

  /** What `addSite` did: nothing for a blank input, nothing (and an alert)
      for a site already listed, otherwise an append. */
  datatype AddOutcome = Blank | Duplicate | Added

  function AddOutcomeOf(sites: seq<string>, input: string): AddOutcome
  {
    var site := Normalize(input);
    if site == [] then Blank else if site in sites then Duplicate else Added
  }

  /** The list after `addSite` with text `input`: unchanged for a blank or
      duplicate site; otherwise the normalised site appended at the end,
      every earlier entry in place. A duplicate-free list stays so. */
  function SitesAfterAdd(sites: seq<string>, input: string): (r: seq<string>)
    ensures Normalize(input) == [] ==> r == sites
    ensures Normalize(input) in sites ==> r == sites
    ensures Normalize(input) != [] && Normalize(input) !in sites ==>
      |r| == |sites| + 1 && r[..|sites|] == sites && r[|sites|] == Normalize(input)
    ensures Distinct(sites) ==> Distinct(r)
  {
    var site := Normalize(input);
    if site == [] || site in sites then sites else sites + [site]
  }

  /** The evidently intended `addSite`: a site the blocking engine would
      refuse is turned away like a blank one, so a list of blockable sites
      stays blockable and every batch for it is accepted. A blockable site
      is added exactly as `addSite` adds it. */
  function SitesAfterCheckedAdd(sites: seq<string>, input: string): (r: seq<string>)
    ensures !BlockableSite(Normalize(input)) ==> r == sites
    ensures BlockableSite(Normalize(input)) ==> r == SitesAfterAdd(sites, input)
    ensures AllBlockable(sites) ==> AllBlockable(r)
    ensures Distinct(sites) ==> Distinct(r)
  {
    if BlockableSite(Normalize(input)) then SitesAfterAdd(sites, input) else sites
  }

  /** With checked adds, the batch for the new list is always accepted: when
      the installed ids lie within the new list's, the engine ends with
      exactly the intended rules, in either mode. */
  lemma CheckedAddInstallsIntended(installed: RuleSet, sites: seq<string>, input: string, studyMode: bool)
    requires AllBlockable(sites)
    requires IdsWithin(installed, |SitesAfterCheckedAdd(sites, input)|)
    ensures var next := SitesAfterCheckedAdd(sites, input);
            ApplyUpdate(installed, RuleBatch(next, studyMode)) == Some(Intended(next, studyMode))
  {
    BatchInstallsIntended(installed, SitesAfterCheckedAdd(sites, input), studyMode);
  }

  /** The built-in sites are all blockable. */
  lemma DefaultSitesBlockable()
    ensures AllBlockable(DefaultSites)
  {
    forall site | site in DefaultSites ensures BlockableSite(site) {
      assert site[0] != '*';
    }
  }

  /** The position `Array.prototype.splice` starts at: a negative index
      counts from the end (clamped at 0), a large one is clamped at the length. */
  function SpliceStart(len: nat, index: int): (k: nat)
    ensures k <= len
  {
    if index < 0 then (if len + index < 0 then 0 else len + index)
    else if index > len then len
    else index
  }

  /** The list without its element at `k`, the others in order. */
  function RemoveAt(sites: seq<string>, k: nat): (r: seq<string>)
    requires k < |sites|
    ensures |r| == |sites| - 1
    ensures forall j :: 0 <= j < |r| ==> r[j] == (if j < k then sites[j] else sites[j + 1])
    ensures multiset(r) + multiset{sites[k]} == multiset(sites)
    ensures forall x :: x in r ==> x in sites
    ensures Distinct(sites) ==> Distinct(r)
  {
    assert sites == sites[..k] + [sites[k]] + sites[k + 1..];
    sites[..k] + sites[k + 1..]
  }

  /** The list after `splice(index, 1)`. For `0 <= index < |sites|` exactly
      that element is gone; an index at or past the end changes nothing; a
      negative index counts from the end, and one below `-|sites|` removes
      the first element. */
  function SitesAfterRemove(sites: seq<string>, index: int): (r: seq<string>)
    ensures 0 <= index < |sites| ==> r == RemoveAt(sites, index)
    ensures index >= |sites| ==> r == sites
    ensures -|sites| <= index < 0 ==> r == RemoveAt(sites, |sites| + index)
    ensures index < -|sites| && sites != [] ==> r == sites[1..]
    ensures sites == [] ==> r == []
    ensures forall x :: x in r ==> x in sites
    ensures Distinct(sites) ==> Distinct(r)
  {
    var k := SpliceStart(|sites|, index);
    if k < |sites| then RemoveAt(sites, k) else sites
  }

  class PopupState {
    var blockedSites: seq<string>
    var studyMode: bool
    /** The text box `blockInput`. */
    var blockInput: string

    /** The module-level state before the storage read has answered. */
    constructor ()
      ensures blockedSites == [] && !studyMode && blockInput == ""
    {
      blockedSites := [];
      studyMode := false;
      blockInput := "";
    }

    /** The answer of the synchronised storage read: a missing list falls
        back to the four built-in sites, a missing flag to `false`. */
    method LoadStored(storedSites: Option<seq<string>>, storedMode: Option<bool>)
      modifies this
      ensures blockedSites == OrDefault(storedSites, DefaultSites)
      ensures studyMode == OrDefault(storedMode, false)
      ensures blockInput == old(blockInput)
    {
      blockedSites := OrDefault(storedSites, DefaultSites);
      studyMode := OrDefault(storedMode, false);
    }

    /** `addSite`: appends the normalised text, clears the box and sends the
        new list; a blank or duplicate entry changes nothing and sends nothing. */
    method AddSite() returns (outcome: AddOutcome, sent: Option<Message>)
      modifies this
      ensures outcome == AddOutcomeOf(old(blockedSites), old(blockInput))
      ensures blockedSites == SitesAfterAdd(old(blockedSites), old(blockInput))
      ensures blockInput == if outcome == Added then "" else old(blockInput)
      ensures sent == if outcome == Added then Some(SitesMessage(blockedSites)) else None
      ensures studyMode == old(studyMode)
    {
      var site := Normalize(blockInput);
      if site == [] {
        return Blank, None;
      }
      if site in blockedSites {
        return Duplicate, None;
      }
      blockedSites := blockedSites + [site];
      blockInput := "";
      outcome, sent := Added, Some(SitesMessage(blockedSites));
    }

    /** `removeSite`: splices one element out and sends the new list. */
    method RemoveSite(index: int) returns (sent: Message)
      modifies this
      ensures blockedSites == SitesAfterRemove(old(blockedSites), index)
      ensures sent == SitesMessage(blockedSites)
      ensures studyMode == old(studyMode) && blockInput == old(blockInput)
    {
      var k := SpliceStart(|blockedSites|, index);
      if k < |blockedSites| {
        blockedSites := RemoveAt(blockedSites, k);
      }
      sent := SitesMessage(blockedSites);
    }

    /** The power button: negates the flag and sends it. */
    method TogglePower() returns (sent: Message)
      modifies this
      ensures studyMode == !old(studyMode)
      ensures sent == ModeMessage(studyMode)
      ensures blockedSites == old(blockedSites) && blockInput == old(blockInput)
    {
      studyMode := !studyMode;
      sent := ModeMessage(studyMode);
    }
  }

  /** Two presses of the power button restore the flag. */
  method ToggleTwice(p: PopupState)
    modifies p
    ensures p.studyMode == old(p.studyMode)
    ensures p.blockedSites == old(p.blockedSites)
  {
    var first := p.TogglePower();
    var second := p.TogglePower();
  }
}
