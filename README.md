# Confluence aged-content alerts — a Dafny model

`confluence_content_cleanup.py` lists the content of a Confluence wiki, picks
out the pages that have not been edited for more than `AGED_DAYS` days, and
emails a digest of them to the page creators, the last editors and/or an
administrator. This project models the part of the script that decides what
is sent to whom:

- **The aging filter** (`content.dfy`, module `Content`). One content item
  becomes a `Page` exactly when its type is `page`, its status is `current`,
  its age in whole days is strictly greater than `AGED_DAYS`, its space is on
  the allow-list (or the list is empty) and none of its labels is on the deny
  list. Blank author addresses are replaced first: a blank creator by
  `ADMIN_EMAIL`, a blank last editor by the (possibly replaced) creator. The
  inner label loop with its `skip` flag is the method `ScanLabels`.
- **The recipient aggregator** (`alerts.dfy`, module `Alerts`). The script's
  main loop is the method `CollectAlerts`. It fills the three dictionaries
  `creator_alerts`, `modifier_alerts` and `admin_alerts` (each a
  `map<string, seq<Page>>`) with lazy list creation and appends, under the
  three toggles. It is proved against the specification `AlertsFor`, which
  files the selected pages one after the other (`GroupBy`). The lemmas relate
  that to an independent reference: the bucket for a key is the in-order
  filter `PagesFor` of the selected pages.
- **Digest preparation** (`digest.dfy`, module `Digests`). Each dictionary
  entry becomes one `Message`. The message goes to the key and has the fixed
  From and Subject. Its title is `str(len(pages)) + ' Outdated Pages'` and its
  pages are sorted by title with a stable sort. `SendEmails` is the loop of
  `send_emails`. `SendAllAlerts` is the three guarded calls at the end of the
  script.
- `text.dfy` (module `Text`) defines Python's string ordering, used by the
  sort, and `str` of a non-negative integer. `scenarios.dfy` holds concrete
  scenarios with the shipped settings, proved as lemmas and methods about
  fixed inputs.

The configuration constants (`SMTP_FROM`, `TENANT`, `SPACES`,
`EXCLUDE_LABELS`, `AGED_DAYS`, the three `ALERT_*` toggles and `ADMIN_EMAIL`)
form the immutable record `Content.Config`. The age of an item is an integer
field of the item. It stands for the script's
`(datetime.now() - strptime(history.lastUpdated.when)).days`.

Notes on the script:
- The email subject is `Outdated Content on Confluence` (line 108).
- `send_emails` opens a new mail-server connection for every message, inside
  its loop over the dictionary (line 112).
- Both address fields of a page are guaranteed non-empty only when
  `ADMIN_EMAIL` is non-empty: an item whose two addresses are blank gets
  `ADMIN_EMAIL` in both. `Content.EmailSubstitution` states the guarantee
  under that condition.

## Model

| member | source | states |
|---|---|---|
| Content.Select | confluence_content_cleanup.py:172-198 | an item yields a page iff it is a `page`, `current`, older than `AGED_DAYS` days, in an allowed space (or no allow-list) and has no deny-listed label; the page keeps the item's id, title and age, has URL `https://<tenant>/wiki/<webui>`, its creator address is the item's or `ADMIN_EMAIL` when blank, and its last-editor address is the item's or the page's creator address when blank |
| Content.ScanLabels | confluence_content_cleanup.py:189-195 | the `skip` flag after the label loop is true iff some label of the item is on the deny-list |
| Content.NonPageNeverSelected | confluence_content_cleanup.py:183 | an item that is not a page, or not current, is never selected, whatever its age |
| Content.ThresholdIsStrict | confluence_content_cleanup.py:171-183 | an item at most `AGED_DAYS` old (in particular exactly `AGED_DAYS`) is not selected; every selected page is older |
| Content.SpaceFilter | confluence_content_cleanup.py:185-186 | with an empty allow-list the space key does not affect the outcome; with a non-empty one, a key outside it excludes the item |
| Content.LabelExcludes | confluence_content_cleanup.py:189-195 | one deny-listed label excludes the item |
| Content.LabelsIrrelevant | confluence_content_cleanup.py:189-195 | if no label of the item is deny-listed (in particular with an empty deny-list), replacing its labels by any others not on the list does not change the outcome |
| Content.EmailSubstitution | confluence_content_cleanup.py:175-180 | in the page of a selected item, a blank creator address is `ADMIN_EMAIL`, a blank last-editor address is the page's creator address (so `ADMIN_EMAIL` when both are blank), non-blank addresses are kept, and with a non-blank `ADMIN_EMAIL` both addresses are non-blank |
| Alerts.AddAlert | confluence_content_cleanup.py:200-216 | filing a page under a key adds the key if missing, appends the page to the end of that key's list, and leaves every other key and list unchanged |
| Alerts.CollectAlerts | confluence_content_cleanup.py:165-216 | after the loop, each dictionary equals `AlertsFor`: the selected pages filed under their recipients when its toggle is on, empty when off |
| Alerts.AlertsStep | confluence_content_cleanup.py:183-216 | a skipped item leaves a dictionary unchanged; a selected item is appended under its recipient in every enabled dictionary, independently of the others; a disabled dictionary stays empty |
| Alerts.GroupByIsFilter | confluence_content_cleanup.py:200-216 | the keys of the grouped dictionary are exactly the recipients of the pages, and each list is the in-order filter of the pages filed under its key |
| Alerts.PagesForSnoc | confluence_content_cleanup.py:200-216 | filing one more page extends only its recipient's filtered list, at the end |
| Alerts.RecipientsSnoc | confluence_content_cleanup.py:200-216 | filing one more page adds exactly its recipient to the set of keys |
| Alerts.PagesForEmpty | confluence_content_cleanup.py:200-216 | a key that no page is filed under has an empty filtered list |
| Alerts.PagesForCounts | confluence_content_cleanup.py:200-216 | a page occurs in its recipient's list exactly as often as among the filed pages |
| Alerts.PagesForMember | confluence_content_cleanup.py:200-216 | a page in a key's list is filed under that key and is one of the filed pages |
| Alerts.GroupByMembers | confluence_content_cleanup.py:200-216 | every listed page is filed under its own key and was filed; every filed page is in its recipient's list, as often as it was filed |
| Alerts.SelectedAreAged | confluence_content_cleanup.py:169-198 | every selected page comes from some input item that passes the filter and is older than `AGED_DAYS` |
| Alerts.SelectedComplete | confluence_content_cleanup.py:169-198 | every input item that passes the filter contributes its page to the selection |
| Alerts.AlertsContents | confluence_content_cleanup.py:165-216 | after the loop a disabled dictionary is empty; an enabled one has exactly the recipients of selected pages as keys, each list is that recipient's selected pages in input order, each selected page is there as often as selected, and every listed page is older than `AGED_DAYS` |
| Digests.Insert | confluence_content_cleanup.py:102 | inserting a page into a list adds exactly that page (multiset) |
| Digests.SortByTitle | confluence_content_cleanup.py:102 | the sorted list is a permutation of the input |
| Digests.InsertSorted | confluence_content_cleanup.py:102 | inserting into a title-sorted list keeps it sorted |
| Digests.SortByTitleSorted | confluence_content_cleanup.py:102 | the digest order is ascending by title and a permutation of the recipient's pages |
| Digests.InsertStable | confluence_content_cleanup.py:102 | inserting a page keeps the relative order of the pages that share any one title |
| Digests.SortByTitleStable | confluence_content_cleanup.py:102 | the sort is stable: pages with equal titles keep their input order, as Python's `sorted` does |
| Digests.DigestTitleCount | confluence_content_cleanup.py:101 | the title ends with ` Outdated Pages` and the digits before it read back as the number of pages |
| Digests.Digest | confluence_content_cleanup.py:101-108 | a digest goes to the key, from `SMTP_FROM`, with the fixed subject, role label and threshold; its title is the decimal page count followed by ` Outdated Pages`; its pages are sorted by title and are a permutation of the entry's list |
| Digests.SendEmails | confluence_content_cleanup.py:98-108 | the outbox is a full batch: as many messages as keys, every key gets a message, no key twice, and each message is the digest of the entry it is addressed to |
| Digests.BatchSize | confluence_content_cleanup.py:219-224 | a role sends no digest exactly when it is disabled or its dictionary is empty, and never more than one per key |
| Digests.SendAllAlerts | confluence_content_cleanup.py:219-224 | the outbox is the creator batch, then the last-modifier batch, then the admin batch; each enabled role's slice is a full batch for its own dictionary with its own role label (every key gets a digest), and a disabled role's slice is empty |
| Digests.DispatchOnePage | confluence_content_cleanup.py:200-224 | with creator and last-modifier alerts on and admin off, one page gives exactly two digests, creator first then last modifier, also when both addresses are the same (no merging across dictionaries) |
| Text.StrLeReflexive | confluence_content_cleanup.py:102 | the title ordering is reflexive |
| Text.StrLeTotal | confluence_content_cleanup.py:102 | any two titles are comparable |
| Text.StrLeTransitive | confluence_content_cleanup.py:102 | the title ordering is transitive |
| Text.StrLeAntisymmetric | confluence_content_cleanup.py:102 | titles that each sort no later than the other are equal |
| Text.Decimal | confluence_content_cleanup.py:101 | `str(n)` is a non-empty string of decimal digits with no leading zero unless `n` is 0 |
| Text.DecimalRoundTrip | confluence_content_cleanup.py:101 | reading the digits of `str(n)` back gives `n` |
| Text.DecimalInjective | confluence_content_cleanup.py:101 | different page counts give different titles' digits |
| Scenarios.DistinctRecipients | confluence_content_cleanup.py:200-216 | with the shipped settings, a 200-day-old page created by a@x.com and last edited by b@x.com is the only page of a@x.com's creator entry and of b@x.com's modifier entry; the admin dictionary stays empty |
| Scenarios.SameRecipientTwice | confluence_content_cleanup.py:200-210 | when creator and last editor are the same address, that address has an entry holding the page in both the creator and the last-modifier dictionary |
| Scenarios.SameRecipientTwoDigests | confluence_content_cleanup.py:169-224 | with the shipped settings, a page created and last edited by a@x.com leads to exactly two digests, both to a@x.com: the creator one, then the last-modifier one |
| Scenarios.DistinctRecipientDigests | confluence_content_cleanup.py:169-224 | with the shipped settings, a page created by a@x.com and last edited by b@x.com leads to exactly two digests: the creator one to a@x.com, then the last-modifier one to b@x.com |
| Scenarios.BlankAddressesGoToAdmin | confluence_content_cleanup.py:175-180 | a page with blank creator and editor addresses is filed under `ADMIN_EMAIL` in both dictionaries |
| Scenarios.OnePageTitle | confluence_content_cleanup.py:101 | a one-page digest is titled `1 Outdated Pages` |
| Scenarios.SelectedSingle | confluence_content_cleanup.py:169-198 | a one-item input that passes the filter selects exactly its page |
| Scenarios.GroupBySingle | confluence_content_cleanup.py:200-216 | filing one page gives a dictionary with that page as the only entry, under its recipient |

## Left out

- `get_all_content` (lines 62-89): HTTP requests with basic auth, JSON decoding, pagination and `sys.exit(2)` on a failed request. This is network I/O. The model takes the concatenated `results` as its input sequence.
- The clock and timestamp parsing (lines 162, 171): the age in whole days is a field of `ContentItem`.
- Items missing a field: the script would raise `KeyError`, but every `ContentItem` in the model has every field.
- Template loading and rendering (lines 93-96, 102): `Message` carries the variables the template receives instead of a rendered body.
- Mail transport (lines 112-118): the SMTP connection, STARTTLS and login. The script opens a new connection for every message. The login call at line 117 uses the names `email_address` and `email_password`, which the script never defines.
- Argument parsing, the credential check and the import guards (lines 10-19, 134-150): process plumbing.
- Digests.SendEmails: the order of the messages is not modelled. Python visits dictionary keys in insertion order; the model's maps are unordered, so the method visits keys in an unspecified order.
