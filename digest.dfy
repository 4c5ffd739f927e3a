/**
 * Digest preparation: for every entry of an alert dictionary, one message to
 * that recipient whose template variables are the recipient, the role, the
 * title "<count> Outdated Pages", the pages sorted by title, and the age
 * threshold. Rendering the template and handing the message to the mail
 * server are not modelled; a message is the data they would receive.
 */
module Digests {
  import opened Text
  import opened Content
  import opened Alerts

  const Subject: string := "Outdated Content on Confluence"
  const TitleSuffix: string := " Outdated Pages"

  /** One email, with the variables the body template is rendered from. */
  datatype Message = Message(
    from: string,
    to: string,
    subject: string,
    recipientReason: string,
    title: string,
    items: seq<Page>,
    alertDays: int)

  /** The role label `send_emails` is called with. */
  function Reason(role: Role): string
  {
    match role
    case Creator => "creator"
    case LastModifier => "last modifier"
    case Admin => "admin"
  }

  // ---------------------------------------------------------------------
  // sorted(pages, key=lambda x: x.title)
  // ---------------------------------------------------------------------

  predicate SortedByTitle(pages: seq<Page>)
  {
    forall i, j :: 0 <= i < j < |pages| ==> StrLe(pages[i].title, pages[j].title)
  }

  /** Places `p` in front of the first page whose title is not smaller. */
  function Insert(p: Page, pages: seq<Page>): (r: seq<Page>)
    ensures multiset(r) == multiset(pages) + multiset{p}
    decreases |pages|
  {
    if pages == [] || StrLe(p.title, pages[0].title) then [p] + pages
    else
      assert pages == [pages[0]] + pages[1..];
      [pages[0]] + Insert(p, pages[1..])
  }

  /** A stable sort by title (insertion sort, last element first). */
  function SortByTitle(pages: seq<Page>): (r: seq<Page>)
    ensures multiset(r) == multiset(pages)
    decreases |pages|
  {
    if pages == [] then []
    else
      assert pages == [pages[0]] + pages[1..];
      Insert(pages[0], SortByTitle(pages[1..]))
  }

  lemma {:induction false} InsertSorted(p: Page, pages: seq<Page>)
    requires SortedByTitle(pages)
    ensures SortedByTitle(Insert(p, pages))
    decreases |pages|
  {
    if pages != [] && !StrLe(p.title, pages[0].title) {
      var head, tail := pages[0], pages[1..];
      StrLeTotal(p.title, head.title);
      InsertSorted(p, tail);
      var r' := Insert(p, tail);
      forall j | 0 <= j < |r'|
        ensures StrLe(head.title, r'[j].title)
      {
        assert r'[j] in multiset(r');
        if r'[j] != p {
          var k :| 0 <= k < |tail| && tail[k] == r'[j];
          assert pages[k + 1] == tail[k];
        }
      }
    } else if pages != [] {
      forall j | 0 < j < |pages|
        ensures StrLe(p.title, pages[j].title)
      {
        StrLeTransitive(p.title, pages[0].title, pages[j].title);
      }
    }
  }

  /** The digest's pages are in ascending title order and are exactly the
      recipient's pages. */
  lemma {:induction false} SortByTitleSorted(pages: seq<Page>)
    ensures SortedByTitle(SortByTitle(pages))
    ensures multiset(SortByTitle(pages)) == multiset(pages)
    decreases |pages|
  {
    if pages != [] {
      SortByTitleSorted(pages[1..]);
      InsertSorted(pages[0], SortByTitle(pages[1..]));
    }
  }

  /** The pages of `pages` with title `t`, in their order. */
  function Titled(pages: seq<Page>, t: string): seq<Page>
    decreases |pages|
  {
    if pages == [] then []
    else (if pages[0].title == t then [pages[0]] else []) + Titled(pages[1..], t)
  }

  lemma {:induction false} InsertStable(p: Page, pages: seq<Page>, t: string)
    ensures Titled(Insert(p, pages), t) == Titled([p] + pages, t)
    decreases |pages|
  {
    if pages != [] && !StrLe(p.title, pages[0].title) {
      InsertStable(p, pages[1..], t);
      StrLeReflexive(p.title);
      var r := Insert(p, pages);
      assert r[1..] == Insert(p, pages[1..]);
      assert ([p] + pages)[1..] == pages;
      assert ([p] + pages[1..])[1..] == pages[1..];
      assert pages[0].title != p.title;
    }
  }

  /** The sort is stable: pages with equal titles keep their relative order,
      as Python's `sorted` guarantees. */
  lemma {:induction false} SortByTitleStable(pages: seq<Page>, t: string)
    ensures Titled(SortByTitle(pages), t) == Titled(pages, t)
    decreases |pages|
  {
    if pages != [] {
      SortByTitleStable(pages[1..], t);
      InsertStable(pages[0], SortByTitle(pages[1..]), t);
      assert ([pages[0]] + SortByTitle(pages[1..]))[1..] == SortByTitle(pages[1..]);
    }
  }

  // ---------------------------------------------------------------------
  // One digest per recipient
  // ---------------------------------------------------------------------

  /** `str(len(value)) + ' Outdated Pages'`. */
  function DigestTitle(count: nat): string
  {
    Decimal(count) + TitleSuffix
  }

  /** The title ends with the fixed suffix and what precedes it reads back
      as the page count. */
  lemma DigestTitleCount(count: nat)
    ensures |DigestTitle(count)| > |TitleSuffix|
    ensures DigestTitle(count)[|DigestTitle(count)| - |TitleSuffix|..] == TitleSuffix
    ensures var digits := DigestTitle(count)[..|DigestTitle(count)| - |TitleSuffix|];
            AllDigits(digits) && DecimalValue(digits) == count
  {
    var s := DigestTitle(count);
    assert s[..|s| - |TitleSuffix|] == Decimal(count);
    DecimalRoundTrip(count);
  }

  /** The message for one dictionary entry. */
  function Digest(cfg: Config, recipient: string, pages: seq<Page>, reason: string): (m: Message)
    ensures m.to == recipient && m.from == cfg.smtpFrom && m.subject == Subject
    ensures m.recipientReason == reason && m.alertDays == cfg.agedDays
    ensures m.title == Decimal(|pages|) + " Outdated Pages"
    ensures SortedByTitle(m.items) && multiset(m.items) == multiset(pages)
  {
    SortByTitleSorted(pages);
    Message(cfg.smtpFrom, recipient, Subject, reason, DigestTitle(|pages|),
            SortByTitle(pages), cfg.agedDays)
  }

  /** `m` is the digest of the entry of `alerts` it is addressed to. */
  predicate DigestOf(cfg: Config, alerts: map<string, seq<Page>>, reason: string, m: Message)
  {
    m.to in alerts && m == Digest(cfg, m.to, alerts[m.to], reason)
  }

  /** `batch` is what one call of `send_emails` sends for `alerts`: one
      digest per key, each key exactly once, each message the digest of the
      entry it is addressed to. */
  predicate Batch(cfg: Config, alerts: map<string, seq<Page>>, reason: string, batch: seq<Message>)
  {
    && |batch| == |alerts|
    && (forall i :: 0 <= i < |batch| ==> DigestOf(cfg, alerts, reason, batch[i]))
    && (forall key :: key in alerts ==> exists i :: 0 <= i < |batch| && batch[i].to == key)
    && (forall i, j :: 0 <= i < j < |batch| ==> batch[i].to != batch[j].to)
  }

  /** The loop of `send_emails`: one digest per key of the dictionary, each
      key once. Messages are collected in an outbox instead of being sent;
      the order in which the keys are visited is not fixed. */
  method SendEmails(cfg: Config, alerts: map<string, seq<Page>>, reason: string)
    returns (outbox: seq<Message>)
    ensures Batch(cfg, alerts, reason, outbox)
  {
    outbox := [];
    var remaining := alerts.Keys;
    while remaining != {}
      invariant remaining <= alerts.Keys
      invariant |outbox| + |remaining| == |alerts.Keys|
      invariant forall i :: 0 <= i < |outbox| ==>
                  DigestOf(cfg, alerts, reason, outbox[i]) && outbox[i].to !in remaining
      invariant forall key :: key in alerts && key !in remaining ==>
                  exists i :: 0 <= i < |outbox| && outbox[i].to == key
      invariant forall i, j :: 0 <= i < j < |outbox| ==> outbox[i].to != outbox[j].to
      decreases |remaining|
    {
      var key :| key in remaining;
      var msg := Digest(cfg, key, alerts[key], reason);
      ghost var sent := outbox;
      outbox := outbox + [msg];
      remaining := remaining - {key};
      forall k | k in alerts && k !in remaining
        ensures exists i :: 0 <= i < |outbox| && outbox[i].to == k
      {
        if k == key {
          assert outbox[|sent|].to == k;
        } else {
          var i :| 0 <= i < |sent| && sent[i].to == k;
          assert outbox[i].to == k;
        }
      }
    }
  }

  /** How many digests a role's call of `send_emails` produces: one per key
      when the role is enabled, none otherwise. */
  function BatchSize(enabled: bool, alerts: map<string, seq<Page>>): (n: nat)
    ensures n <= |alerts| && (n == 0 <==> !enabled || alerts == map[])
  {
    if enabled then |alerts| else 0
  }

  /** `outbox` is what the end of the script sends: all creator digests
      first, then all last-modifier digests, then all admin digests. Each
      enabled role contributes one full batch for its dictionary, with that
      role's label; a disabled role contributes nothing. */
  predicate Dispatched(cfg: Config, creatorAlerts: map<string, seq<Page>>,
                       modifierAlerts: map<string, seq<Page>>, adminAlerts: map<string, seq<Page>>,
                       outbox: seq<Message>)
  {
    var nc := BatchSize(cfg.alertCreator, creatorAlerts);
    var nm := BatchSize(cfg.alertLastModified, modifierAlerts);
    && |outbox| == nc + nm + BatchSize(cfg.alertAdmin, adminAlerts)
    && (cfg.alertCreator ==> Batch(cfg, creatorAlerts, Reason(Creator), outbox[..nc]))
    && (cfg.alertLastModified ==> Batch(cfg, modifierAlerts, Reason(LastModifier), outbox[nc..nc + nm]))
    && (cfg.alertAdmin ==> Batch(cfg, adminAlerts, Reason(Admin), outbox[nc + nm..]))
  }

  /** The three guarded calls of `send_emails` at the end of the script. */
  method SendAllAlerts(cfg: Config, creatorAlerts: map<string, seq<Page>>,
                       modifierAlerts: map<string, seq<Page>>, adminAlerts: map<string, seq<Page>>)
    returns (outbox: seq<Message>)
    ensures Dispatched(cfg, creatorAlerts, modifierAlerts, adminAlerts, outbox)
  {
    var creatorBatch, modifierBatch, adminBatch := [], [], [];
    if cfg.alertCreator {
      creatorBatch := SendEmails(cfg, creatorAlerts, Reason(Creator));
    }
    if cfg.alertLastModified {
      modifierBatch := SendEmails(cfg, modifierAlerts, Reason(LastModifier));
    }
    if cfg.alertAdmin {
      adminBatch := SendEmails(cfg, adminAlerts, Reason(Admin));
    }
    outbox := creatorBatch + modifierBatch + adminBatch;
    ConcatSlices(creatorBatch, modifierBatch, adminBatch);
  }

  /** With creator and last-modifier alerts on and admin alerts off, one
      page filed under `creator` and `editor` gives exactly two digests, the
      creator one first, even when the two addresses are the same. */
  lemma DispatchOnePage(cfg: Config, creator: string, editor: string, p: Page, outbox: seq<Message>)
    requires cfg.alertCreator && cfg.alertLastModified && !cfg.alertAdmin
    requires Dispatched(cfg, map[creator := [p]], map[editor := [p]], map[], outbox)
    ensures outbox == [Digest(cfg, creator, [p], Reason(Creator)), Digest(cfg, editor, [p], Reason(LastModifier))]
  {
    assert DigestOf(cfg, map[creator := [p]], Reason(Creator), outbox[..1][0]);
    assert DigestOf(cfg, map[editor := [p]], Reason(LastModifier), outbox[1..2][0]);
  }

  /** The three batches can be read back out of the outbox. */
  lemma ConcatSlices(a: seq<Message>, b: seq<Message>, c: seq<Message>)
    ensures |a + b + c| == |a| + |b| + |c|
    ensures (a + b + c)[..|a|] == a
    ensures (a + b + c)[|a|..|a| + |b|] == b
    ensures (a + b + c)[|a| + |b|..] == c
  {
  }
}
