/**
 * The recipient aggregator: the script's main loop over the fetched content,
 * which fills the three alert dictionaries (creator, last modifier, admin),
 * each mapping a recipient address to the list of that recipient's pages.
 */
module Alerts {
  import opened Content

  /** Why a recipient is alerted; one dictionary per role. */
  datatype Role = Creator | LastModifier | Admin

  function Enabled(cfg: Config, role: Role): bool
  {
    match role
    case Creator => cfg.alertCreator
    case LastModifier => cfg.alertLastModified
    case Admin => cfg.alertAdmin
  }

  /** The dictionary key a page is filed under for a role. */
  function RecipientFor(cfg: Config, role: Role, p: Page): string
  {
    match role
    case Creator => p.createdEmail
    case LastModifier => p.lastUpdatedEmail
    case Admin => cfg.adminEmail
  }

  /** `alerts.setdefault(key, []).append(p)`, written as the script does it:
      the list is created on first use, `p` goes to the end of the list under
      `key`, and no other entry changes. */
  function AddAlert(alerts: map<string, seq<Page>>, key: string, p: Page): (r: map<string, seq<Page>>)
    ensures r.Keys == alerts.Keys + {key}
    ensures r[key] == (if key in alerts then alerts[key] else []) + [p]
    ensures forall k :: k in alerts && k != key ==> r[k] == alerts[k]
  {
    var bucket := if key in alerts then alerts[key] else [];
    alerts[key := bucket + [p]]
  }

  /** The pages the main loop produces, in input order. */
  function Selected(cfg: Config, content: seq<ContentItem>): seq<Page>
    decreases |content|
  {
    if content == [] then []
    else
      var rest := Selected(cfg, content[..|content| - 1]);
      match Select(cfg, content[|content| - 1])
      case Some(p) => rest + [p]
      case None => rest
  }

  /** The dictionary that filing `pages` one after the other builds. */
  function GroupBy(cfg: Config, role: Role, pages: seq<Page>): map<string, seq<Page>>
    decreases |pages|
  {
    if pages == [] then map[]
    else
      var last := pages[|pages| - 1];
      AddAlert(GroupBy(cfg, role, pages[..|pages| - 1]), RecipientFor(cfg, role, last), last)
  }

  /** The dictionary for a role after the loop has seen `content`: grouped
      selected pages when the role's toggle is on, empty otherwise. */
  function AlertsFor(cfg: Config, role: Role, content: seq<ContentItem>): map<string, seq<Page>>
  {
    if Enabled(cfg, role) then GroupBy(cfg, role, Selected(cfg, content)) else map[]
  }

  /** The main loop: filter each item, substitute blank addresses, and file
      the resulting page into every enabled dictionary. */
  method CollectAlerts(cfg: Config, content: seq<ContentItem>)
    returns (creatorAlerts: map<string, seq<Page>>,
             modifierAlerts: map<string, seq<Page>>,
             adminAlerts: map<string, seq<Page>>)
    ensures creatorAlerts == AlertsFor(cfg, Creator, content)
    ensures modifierAlerts == AlertsFor(cfg, LastModifier, content)
    ensures adminAlerts == AlertsFor(cfg, Admin, content)
  {
    creatorAlerts, modifierAlerts, adminAlerts := map[], map[], map[];
    for n := 0 to |content|
      invariant creatorAlerts == AlertsFor(cfg, Creator, content[..n])
      invariant modifierAlerts == AlertsFor(cfg, LastModifier, content[..n])
      invariant adminAlerts == AlertsFor(cfg, Admin, content[..n])
    {
      var item := content[n];
      assert content[..n + 1] == content[..n] + [item];
      AlertsStep(cfg, content[..n], item, Creator);
      AlertsStep(cfg, content[..n], item, LastModifier);
      AlertsStep(cfg, content[..n], item, Admin);
      var url := "https://" + cfg.tenant + "/wiki/" + item.webui;

      // Blank addresses: creator falls back to the administrator, last
      // editor to the creator.
      var createdEmail := item.createdEmail;
      if createdEmail == "" {
        createdEmail := cfg.adminEmail;
      }
      var lastUpdatedEmail := item.lastUpdatedEmail;
      if lastUpdatedEmail == "" {
        lastUpdatedEmail := createdEmail;
      }

      if item.kind == "page" && item.status == "current" && item.daysSinceUpdated > cfg.agedDays {
        if cfg.spaces != {} && item.spaceKey !in cfg.spaces {
          continue;
        }
        if cfg.excludeLabels != {} {
          var skip := ScanLabels(item.labels, cfg.excludeLabels);
          if skip {
            continue;
          }
        }

        var page := Page(item.id, item.title, lastUpdatedEmail, item.daysSinceUpdated, createdEmail, url);
        assert Select(cfg, item) == Some(page);

        if cfg.alertCreator {
          var bucket := if page.createdEmail in creatorAlerts then creatorAlerts[page.createdEmail] else [];
          creatorAlerts := creatorAlerts[page.createdEmail := bucket + [page]];
        }
        if cfg.alertLastModified {
          var bucket := if page.lastUpdatedEmail in modifierAlerts then modifierAlerts[page.lastUpdatedEmail] else [];
          modifierAlerts := modifierAlerts[page.lastUpdatedEmail := bucket + [page]];
        }
        if cfg.alertAdmin {
          var bucket := if cfg.adminEmail in adminAlerts then adminAlerts[cfg.adminEmail] else [];
          adminAlerts := adminAlerts[cfg.adminEmail := bucket + [page]];
        }
      }
    }
    assert content[..|content|] == content;
  }

  // ---------------------------------------------------------------------
  // A reference definition of a bucket, and what the loop builds
  // ---------------------------------------------------------------------

  /** The pages of `pages` filed under `key` for `role`, in their order. */
  function PagesFor(cfg: Config, role: Role, pages: seq<Page>, key: string): seq<Page>
    decreases |pages|
  {
    if pages == [] then []
    else (if RecipientFor(cfg, role, pages[0]) == key then [pages[0]] else [])
         + PagesFor(cfg, role, pages[1..], key)
  }

  /** The addresses some page of `pages` is filed under for `role`. */
  function Recipients(cfg: Config, role: Role, pages: seq<Page>): set<string>
  {
    set i | 0 <= i < |pages| :: RecipientFor(cfg, role, pages[i])
  }

  lemma {:induction false} PagesForSnoc(cfg: Config, role: Role, pages: seq<Page>, p: Page, key: string)
    ensures PagesFor(cfg, role, pages + [p], key)
            == PagesFor(cfg, role, pages, key) + (if RecipientFor(cfg, role, p) == key then [p] else [])
    decreases |pages|
  {
    if pages == [] {
      assert pages + [p] == [p];
    } else {
      assert (pages + [p])[1..] == pages[1..] + [p];
      PagesForSnoc(cfg, role, pages[1..], p, key);
    }
  }

  lemma RecipientsSnoc(cfg: Config, role: Role, pages: seq<Page>, p: Page)
    ensures Recipients(cfg, role, pages + [p]) == Recipients(cfg, role, pages) + {RecipientFor(cfg, role, p)}
  {
    var all := pages + [p];
    forall k | k in Recipients(cfg, role, all)
      ensures k in Recipients(cfg, role, pages) + {RecipientFor(cfg, role, p)}
    {
      var i :| 0 <= i < |all| && RecipientFor(cfg, role, all[i]) == k;
      if i < |pages| {
        assert all[i] == pages[i];
      }
    }
    forall k | k in Recipients(cfg, role, pages)
      ensures k in Recipients(cfg, role, all)
    {
      var i :| 0 <= i < |pages| && RecipientFor(cfg, role, pages[i]) == k;
      assert all[i] == pages[i];
    }
    assert RecipientFor(cfg, role, all[|pages|]) == RecipientFor(cfg, role, p);
  }

  /** The dictionary built by filing `pages` has one entry per recipient,
      and the entry for a recipient is exactly that recipient's pages, each
      as often as in `pages` and in the same order. */
  lemma {:induction false} GroupByIsFilter(cfg: Config, role: Role, pages: seq<Page>)
    ensures GroupBy(cfg, role, pages).Keys == Recipients(cfg, role, pages)
    ensures forall key :: key in GroupBy(cfg, role, pages) ==>
              GroupBy(cfg, role, pages)[key] == PagesFor(cfg, role, pages, key)
    decreases |pages|
  {
    if pages != [] {
      var init, last := pages[..|pages| - 1], pages[|pages| - 1];
      assert pages == init + [last];
      GroupByIsFilter(cfg, role, init);
      RecipientsSnoc(cfg, role, init, last);
      var before := GroupBy(cfg, role, init);
      var g := GroupBy(cfg, role, pages);
      assert g == AddAlert(before, RecipientFor(cfg, role, last), last);
      forall key | key in g
        ensures g[key] == PagesFor(cfg, role, pages, key)
      {
        PagesForSnoc(cfg, role, init, last, key);
        if key !in before {
          PagesForEmpty(cfg, role, init, key);
        }
      }
    }
  }

  /** A recipient no page is filed under has no pages. */
  lemma {:induction false} PagesForEmpty(cfg: Config, role: Role, pages: seq<Page>, key: string)
    requires key !in Recipients(cfg, role, pages)
    ensures PagesFor(cfg, role, pages, key) == []
    decreases |pages|
  {
    if pages != [] {
      assert RecipientFor(cfg, role, pages[0]) != key;
      forall i | 0 <= i < |pages[1..]|
        ensures RecipientFor(cfg, role, pages[1..][i]) != key
      {
        assert pages[1..][i] == pages[i + 1];
      }
      PagesForEmpty(cfg, role, pages[1..], key);
    }
  }

  /** A page is in its recipient's bucket exactly as many times as it
      occurs in `pages`. */
  lemma {:induction false} PagesForCounts(cfg: Config, role: Role, pages: seq<Page>, key: string, p: Page)
    ensures RecipientFor(cfg, role, p) == key ==>
              multiset(PagesFor(cfg, role, pages, key))[p] == multiset(pages)[p]
    decreases |pages|
  {
    if pages != [] {
      PagesForCounts(cfg, role, pages[1..], key, p);
      assert pages == [pages[0]] + pages[1..];
      assert multiset(pages) == multiset{pages[0]} + multiset(pages[1..]);
    }
  }

  /** Every selected page comes from an item of the input, and is older
      than the threshold. */
  lemma {:induction false} SelectedAreAged(cfg: Config, content: seq<ContentItem>)
    ensures forall p :: p in Selected(cfg, content) ==>
              p.lastUpdatedDays > cfg.agedDays &&
              exists i :: 0 <= i < |content| && Select(cfg, content[i]) == Some(p)
    decreases |content|
  {
    if content != [] {
      var init := content[..|content| - 1];
      SelectedAreAged(cfg, init);
      forall p | p in Selected(cfg, content)
        ensures p.lastUpdatedDays > cfg.agedDays
        ensures exists i :: 0 <= i < |content| && Select(cfg, content[i]) == Some(p)
      {
        if p in Selected(cfg, init) {
          var i :| 0 <= i < |init| && Select(cfg, init[i]) == Some(p);
          assert content[i] == init[i];
        } else {
          assert Select(cfg, content[|content| - 1]) == Some(p);
        }
      }
    }
  }

  /** Conversely, every item that passes the filter yields a selected page. */
  lemma {:induction false} SelectedComplete(cfg: Config, content: seq<ContentItem>, i: nat)
    requires i < |content| && Select(cfg, content[i]).Some?
    ensures Select(cfg, content[i]).value in Selected(cfg, content)
    decreases |content|
  {
    if i < |content| - 1 {
      var init := content[..|content| - 1];
      assert init[i] == content[i];
      SelectedComplete(cfg, init, i);
    }
  }

  /** An item that is skipped leaves all three dictionaries as they were;
      a selected one is appended, under its recipient's key, to every
      enabled dictionary and to no disabled one. */
  lemma AlertsStep(cfg: Config, content: seq<ContentItem>, item: ContentItem, role: Role)
    ensures Select(cfg, item).None? ==>
              AlertsFor(cfg, role, content + [item]) == AlertsFor(cfg, role, content)
    ensures Select(cfg, item).Some? && Enabled(cfg, role) ==>
              var p := Select(cfg, item).value;
              AlertsFor(cfg, role, content + [item])
              == AddAlert(AlertsFor(cfg, role, content), RecipientFor(cfg, role, p), p)
    ensures !Enabled(cfg, role) ==> AlertsFor(cfg, role, content + [item]) == map[]
  {
  }

  /** A page in a bucket is filed under that bucket's key and comes from
      `pages`. */
  lemma {:induction false} PagesForMember(cfg: Config, role: Role, pages: seq<Page>, key: string, p: Page)
    requires p in PagesFor(cfg, role, pages, key)
    ensures RecipientFor(cfg, role, p) == key && p in pages
    decreases |pages|
  {
    if p != pages[0] || RecipientFor(cfg, role, pages[0]) != key {
      PagesForMember(cfg, role, pages[1..], key, p);
    }
  }

  /** Every page in a bucket is filed under that bucket's key and comes from
      `pages`; every page of `pages` is in its recipient's bucket exactly as
      often as it occurs in `pages`. */
  lemma {:induction false} GroupByMembers(cfg: Config, role: Role, pages: seq<Page>)
    ensures forall key, p :: key in GroupBy(cfg, role, pages) && p in GroupBy(cfg, role, pages)[key] ==>
              RecipientFor(cfg, role, p) == key && p in pages
    ensures forall p :: p in pages ==>
              RecipientFor(cfg, role, p) in GroupBy(cfg, role, pages) &&
              multiset(GroupBy(cfg, role, pages)[RecipientFor(cfg, role, p)])[p] == multiset(pages)[p]
  {
    var g := GroupBy(cfg, role, pages);
    GroupByIsFilter(cfg, role, pages);
    forall key, p | key in g && p in g[key]
      ensures RecipientFor(cfg, role, p) == key && p in pages
    {
      PagesForMember(cfg, role, pages, key, p);
    }
    forall p | p in pages
      ensures RecipientFor(cfg, role, p) in g
      ensures multiset(g[RecipientFor(cfg, role, p)])[p] == multiset(pages)[p]
    {
      var key := RecipientFor(cfg, role, p);
      var i :| 0 <= i < |pages| && pages[i] == p;
      assert key in Recipients(cfg, role, pages);
      PagesForCounts(cfg, role, pages, key, p);
    }
  }

  /** After the loop: a disabled dictionary is empty; an enabled one has a
      key for every recipient of a selected page and no other, each list is
      that recipient's selected pages in input order, every selected page is
      in its recipient's list as often as it was selected, and every listed
      page is filed under its own recipient and older than the threshold. */
  lemma {:induction false} AlertsContents(cfg: Config, role: Role, content: seq<ContentItem>)
    ensures !Enabled(cfg, role) ==> AlertsFor(cfg, role, content) == map[]
    ensures Enabled(cfg, role) ==>
              && AlertsFor(cfg, role, content).Keys == Recipients(cfg, role, Selected(cfg, content))
              && (forall key :: key in AlertsFor(cfg, role, content) ==>
                    AlertsFor(cfg, role, content)[key] == PagesFor(cfg, role, Selected(cfg, content), key))
              && (forall p :: p in Selected(cfg, content) ==>
                    RecipientFor(cfg, role, p) in AlertsFor(cfg, role, content) &&
                    multiset(AlertsFor(cfg, role, content)[RecipientFor(cfg, role, p)])[p]
                    == multiset(Selected(cfg, content))[p])
    ensures forall key, p :: key in AlertsFor(cfg, role, content) && p in AlertsFor(cfg, role, content)[key] ==>
              RecipientFor(cfg, role, p) == key && p.lastUpdatedDays > cfg.agedDays
  {
    if Enabled(cfg, role) {
      SelectedAreAged(cfg, content);
      GroupByIsFilter(cfg, role, Selected(cfg, content));
      GroupByMembers(cfg, role, Selected(cfg, content));
    }
  }
}
