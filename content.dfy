/**
 * The aging filter: one content item from the wiki's content listing is
 * either projected onto a `Page` (it is an aged, current page in a
 * monitored space carrying no excluded label) or skipped.
 */
module Content {

  datatype Option<T> = None | Some(value: T)

  /** The script's compiled-in settings, as one immutable record. */
  datatype Config = Config(
    smtpFrom: string,              // sender of every digest
    tenant: string,                // <tenant>.atlassian.net
    spaces: set<string>,           // allow-list of space keys; empty: all spaces
    excludeLabels: set<string>,    // deny-list of labels; empty: none
    agedDays: int,                 // age threshold in whole days
    alertCreator: bool,
    alertLastModified: bool,
    alertAdmin: bool,
    adminEmail: string)

  /** The fields of one entry of the listing's `results` that the filter
      reads. The age is the whole number of days between the run's clock and
      `history.lastUpdated.when`, taken as given. */
  datatype ContentItem = ContentItem(
    id: string,
    title: string,
    kind: string,                  // `type`: "page", "blogpost", ...
    status: string,                // "current", "trashed", "draft", ...
    spaceKey: string,
    createdEmail: string,          // history.createdBy.email
    lastUpdatedEmail: string,      // history.lastUpdated.by.email
    daysSinceUpdated: int,
    labels: seq<string>,           // metadata.labels.results[].label
    webui: string)                 // _links.webui

  /** The script's `Page` record. */
  datatype Page = Page(
    id: string,
    title: string,
    lastUpdatedEmail: string,
    lastUpdatedDays: int,
    createdEmail: string,
    url: string)

  function PageUrl(cfg: Config, webui: string): string
  {
    "https://" + cfg.tenant + "/wiki/" + webui
  }

  /** The creator address, with a blank one replaced by the administrator's. */
  function CreatorEmail(cfg: Config, item: ContentItem): string
  {
    if item.createdEmail == "" then cfg.adminEmail else item.createdEmail
  }

  /** The last editor's address, with a blank one replaced by the (possibly
      substituted) creator address. */
  function LastUpdaterEmail(cfg: Config, item: ContentItem): string
  {
    if item.lastUpdatedEmail == "" then CreatorEmail(cfg, item) else item.lastUpdatedEmail
  }

  /** Type, status and age test of the main condition. */
  predicate IsAgedCurrentPage(cfg: Config, item: ContentItem)
  {
    item.kind == "page" && item.status == "current" && item.daysSinceUpdated > cfg.agedDays
  }

  /** The space allow-list rejects the item. */
  predicate OutsideSpaces(cfg: Config, item: ContentItem)
  {
    cfg.spaces != {} && item.spaceKey !in cfg.spaces
  }

  /** The label deny-list rejects the item: it is active and one of the
      item's labels is on it. */
  predicate HasExcludedLabel(cfg: Config, item: ContentItem)
  {
    cfg.excludeLabels != {} &&
    exists i :: 0 <= i < |item.labels| && item.labels[i] in cfg.excludeLabels
  }

  function MakePage(cfg: Config, item: ContentItem): Page
  {
    Page(item.id, item.title, LastUpdaterEmail(cfg, item), item.daysSinceUpdated,
         CreatorEmail(cfg, item), PageUrl(cfg, item.webui))
  }

  /** What one pass of the main loop makes of one item: a page exactly when
      the item passes every test, carrying the item's identity, title, age
      and address, and its author addresses with blanks substituted: a blank
      creator by the administrator, a blank last editor by the creator. */
  function Select(cfg: Config, item: ContentItem): (r: Option<Page>)
    ensures r.Some? <==>
              && item.kind == "page"
              && item.status == "current"
              && item.daysSinceUpdated > cfg.agedDays
              && (cfg.spaces == {} || item.spaceKey in cfg.spaces)
              && (forall i :: 0 <= i < |item.labels| ==> item.labels[i] !in cfg.excludeLabels)
    ensures r.Some? ==>
              && r.value.id == item.id && r.value.title == item.title
              && r.value.lastUpdatedDays == item.daysSinceUpdated
              && r.value.url == "https://" + cfg.tenant + "/wiki/" + item.webui
              && r.value.createdEmail == (if item.createdEmail == "" then cfg.adminEmail else item.createdEmail)
              && r.value.lastUpdatedEmail
                 == (if item.lastUpdatedEmail == "" then r.value.createdEmail else item.lastUpdatedEmail)
  {
    if IsAgedCurrentPage(cfg, item) && !OutsideSpaces(cfg, item) && !HasExcludedLabel(cfg, item)
    then Some(MakePage(cfg, item))
    else None
  }

  /** The inner label loop with its `skip` flag: true exactly when some label
      of the item is on the deny-list. */
  method ScanLabels(labels: seq<string>, excludeLabels: set<string>) returns (skip: bool)
    ensures skip <==> exists i :: 0 <= i < |labels| && labels[i] in excludeLabels
  {
    skip := false;
    for j := 0 to |labels|
      invariant skip <==> exists i :: 0 <= i < j && labels[i] in excludeLabels
    {
      if labels[j] in excludeLabels {
        skip := true;
      }
    }
  }

  // ---------------------------------------------------------------------
  // Properties of the filter
  // ---------------------------------------------------------------------

  /** Anything that is not a current page is never selected, whatever its age. */
  lemma NonPageNeverSelected(cfg: Config, item: ContentItem)
    requires item.kind != "page" || item.status != "current"
    ensures Select(cfg, item) == None
  {
  }

  /** The threshold is strict: an item exactly `agedDays` old stays out, and
      every selected page is older than the threshold. */
  lemma ThresholdIsStrict(cfg: Config, item: ContentItem)
    ensures item.daysSinceUpdated <= cfg.agedDays ==> Select(cfg, item) == None
    ensures Select(cfg, item).Some? ==> Select(cfg, item).value.lastUpdatedDays > cfg.agedDays
  {
  }

  /** With no allow-list the space key is irrelevant; with one, a key outside
      it excludes the item. */
  lemma SpaceFilter(cfg: Config, item: ContentItem, otherSpace: string)
    ensures cfg.spaces == {} ==> Select(cfg, item) == Select(cfg, item.(spaceKey := otherSpace))
    ensures cfg.spaces != {} && item.spaceKey !in cfg.spaces ==> Select(cfg, item) == None
  {
  }

  /** One excluded label is enough to drop the item. */
  lemma LabelExcludes(cfg: Config, item: ContentItem, k: nat)
    requires k < |item.labels| && item.labels[k] in cfg.excludeLabels
    ensures Select(cfg, item) == None
  {
  }

  /** When no label of the item is on the deny-list (in particular when the
      list is empty) the labels are irrelevant: any other labels that avoid
      the list give the same outcome. */
  lemma LabelsIrrelevant(cfg: Config, item: ContentItem, otherLabels: seq<string>)
    requires forall i :: 0 <= i < |item.labels| ==> item.labels[i] !in cfg.excludeLabels
    requires forall i :: 0 <= i < |otherLabels| ==> otherLabels[i] !in cfg.excludeLabels
    ensures Select(cfg, item) == Select(cfg, item.(labels := otherLabels))
  {
  }

  /** The email substitution, as it shows in the page: a blank creator
      becomes the administrator, a blank last editor becomes the
      (substituted) creator, non-blank addresses are kept, and with a
      non-blank administrator address neither field of a page is blank. */
  lemma EmailSubstitution(cfg: Config, item: ContentItem)
    ensures Select(cfg, item).Some? ==>
              var p := Select(cfg, item).value;
              && (item.createdEmail == "" ==> p.createdEmail == cfg.adminEmail)
              && (item.createdEmail != "" ==> p.createdEmail == item.createdEmail)
              && (item.lastUpdatedEmail == "" ==> p.lastUpdatedEmail == p.createdEmail)
              && (item.lastUpdatedEmail != "" ==> p.lastUpdatedEmail == item.lastUpdatedEmail)
              && (item.createdEmail == "" && item.lastUpdatedEmail == "" ==> p.lastUpdatedEmail == cfg.adminEmail)
              && (cfg.adminEmail != "" ==> p.createdEmail != "" && p.lastUpdatedEmail != "")
  {
  }
}
