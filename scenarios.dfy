/**
 * Concrete scenarios with the shipped settings (threshold 180 days, creator
 * and last-modifier alerts on, admin alerts off, no space or label filter):
 * one aged page whose creator and last editor differ, and one whose creator
 * and last editor are the same person.
 */
module Scenarios {
  import opened Text
  import opened Content
  import opened Alerts
  import opened Digests

  const Shipped: Config := Config(
    "confluence@yourdomain.com", "yourdomain.atlassian.net", {}, {}, 180,
    true, true, false, "admin@yourdomain.com")

  function AgedItem(creator: string, editor: string): ContentItem
  {
    ContentItem("42", "Runbook", "page", "current", "OPS", creator, editor, 200, [], "spaces/OPS/pages/42")
  }

  function AgedPage(creator: string, editor: string): Page
  {
    Page("42", "Runbook", editor, 200, creator, PageUrl(Shipped, "spaces/OPS/pages/42"))
  }

  lemma SelectedSingle(cfg: Config, item: ContentItem, p: Page)
    requires Select(cfg, item) == Some(p)
    ensures Selected(cfg, [item]) == [p]
  {
  }

  lemma GroupBySingle(cfg: Config, role: Role, p: Page)
    ensures GroupBy(cfg, role, [p]) == map[RecipientFor(cfg, role, p) := [p]]
  {
    assert [p][..0] == [];
    var empty: seq<Page> := [];
    assert empty + [p] == [p];
    assert GroupBy(cfg, role, [p]) == AddAlert(map[], RecipientFor(cfg, role, p), p);
  }

  /** Creator a@x.com, last editor b@x.com: each is the one key of its own
      dictionary, holding the page; the admin dictionary stays empty. */
  lemma DistinctRecipients()
    ensures AlertsFor(Shipped, Creator, [AgedItem("a@x.com", "b@x.com")])
            == map["a@x.com" := [AgedPage("a@x.com", "b@x.com")]]
    ensures AlertsFor(Shipped, LastModifier, [AgedItem("a@x.com", "b@x.com")])
            == map["b@x.com" := [AgedPage("a@x.com", "b@x.com")]]
    ensures AlertsFor(Shipped, Admin, [AgedItem("a@x.com", "b@x.com")]) == map[]
  {
  }

  /** A digest of one page is titled "1 Outdated Pages". */
  lemma OnePageTitle(cfg: Config, recipient: string, p: Page, reason: string)
    ensures Digest(cfg, recipient, [p], reason).title == "1 Outdated Pages"
  {
  }

  /** Creator and last editor both a@x.com: the page is in both the creator
      and the last-modifier dictionary under the same key. */
  lemma SameRecipientTwice()
    ensures AlertsFor(Shipped, Creator, [AgedItem("a@x.com", "a@x.com")])
            == map["a@x.com" := [AgedPage("a@x.com", "a@x.com")]]
    ensures AlertsFor(Shipped, LastModifier, [AgedItem("a@x.com", "a@x.com")])
            == map["a@x.com" := [AgedPage("a@x.com", "a@x.com")]]
  {
  }

  /** A page whose creator and editor addresses are blank is filed under the
      administrator's address in both dictionaries. */
  lemma BlankAddressesGoToAdmin()
    ensures AlertsFor(Shipped, Creator, [AgedItem("", "")])
            == map["admin@yourdomain.com" := [AgedPage("admin@yourdomain.com", "admin@yourdomain.com")]]
    ensures AlertsFor(Shipped, LastModifier, [AgedItem("", "")])
            == map["admin@yourdomain.com" := [AgedPage("admin@yourdomain.com", "admin@yourdomain.com")]]
  {
  }

  /** The whole pipeline on the same-address page: the dictionaries are
      filled and the digests prepared, and a@x.com is sent two separate
      digests, the creator one first and then the last-modifier one. */
  method SameRecipientTwoDigests() returns (outbox: seq<Message>)
    ensures |outbox| == 2
    ensures outbox[0] == Digest(Shipped, "a@x.com", [AgedPage("a@x.com", "a@x.com")], "creator")
    ensures outbox[1] == Digest(Shipped, "a@x.com", [AgedPage("a@x.com", "a@x.com")], "last modifier")
  {
    var content := [AgedItem("a@x.com", "a@x.com")];
    var creatorAlerts, modifierAlerts, adminAlerts := CollectAlerts(Shipped, content);
    SameRecipientTwice();
    assert AlertsFor(Shipped, Admin, content) == map[];
    outbox := SendAllAlerts(Shipped, creatorAlerts, modifierAlerts, adminAlerts);
    DispatchOnePage(Shipped, "a@x.com", "a@x.com", AgedPage("a@x.com", "a@x.com"), outbox);
  }

  /** The whole pipeline on the page created by a@x.com and last edited by
      b@x.com: two digests, the creator one to a@x.com and then the
      last-modifier one to b@x.com (each titled "1 Outdated Pages", by
      `OnePageTitle`). */
  method DistinctRecipientDigests() returns (outbox: seq<Message>)
    ensures |outbox| == 2
    ensures outbox[0] == Digest(Shipped, "a@x.com", [AgedPage("a@x.com", "b@x.com")], "creator")
    ensures outbox[1] == Digest(Shipped, "b@x.com", [AgedPage("a@x.com", "b@x.com")], "last modifier")
  {
    var content, p := [AgedItem("a@x.com", "b@x.com")], AgedPage("a@x.com", "b@x.com");
    var creatorAlerts, modifierAlerts, adminAlerts := CollectAlerts(Shipped, content);
    DistinctRecipients();
    outbox := SendAllAlerts(Shipped, creatorAlerts, modifierAlerts, adminAlerts);
    DispatchOnePage(Shipped, "a@x.com", "b@x.com", p, outbox);
  }
}
