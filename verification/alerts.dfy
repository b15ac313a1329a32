/** The alert-recipient manager (src/pages/Alerts.jsx): two collections kept in browser
    storage, recipients and an alert history. The store is seeded with demo data on first
    use. Recipients can be removed, switched on or off, created and edited, and every create
    or edit prepends a history entry. Ids (`uid()`) and clock readings are parameters. */
module Alerts {
  import opened Wrappers
  import Sorting

  // ---------- Records ----------

  /** `alert_threshold`: the lowest severity a recipient wants to hear about. */
  datatype Threshold = Moderate | High | Extreme

  /** The content fields of a recipient object (`organization_name`, `contact_name`,
      `phone_number`, `email`, `alert_threshold`, `is_active`). Records are plain objects
      built by spreading, so any of them may be missing. */
  datatype Fields = Fields(
    organizationName: Option<string>,
    contactName: Option<string>,
    phoneNumber: Option<string>,
    email: Option<string>,
    alertThreshold: Option<Threshold>,
    isActive: Option<bool>)

  /** A stored recipient. `createdDate` is the creation time in milliseconds; the page
      stores it as an ISO string and compares it through `getTime()`. */
  datatype Recipient = Recipient(id: string, createdDate: int, fields: Fields)

  /** The object `upsert` receives from the form. In edit mode the form starts from the edited
      record itself, so it may also carry an `id` and a `created_date`. */
  datatype RecipientData = RecipientData(id: Option<string>, createdDate: Option<int>, fields: Fields)

  datatype HistoryEntry = HistoryEntry(
    id: string,
    createdDate: int,
    organizationName: Option<string>,
    severity: Threshold,
    message: string,
    delivered: bool)

  // ---------- Storage ----------

  /** A value as `JSON.parse` returns it, reduced to what the page distinguishes: an array of
      records, or anything else (`null`, a number, an object, ...). */
  datatype Doc<E> = NotArray | Arr(items: seq<E>)

  /** What one storage key holds: nothing, text that `JSON.parse` rejects (the empty string
      included), or text that parses. */
  datatype Entry<E> = Missing | Corrupt | Holds(doc: Doc<E>)

  /** The two keys the page uses, `firewatch.alertConfigs.v1` and
      `firewatch.alertHistory.v1`. */
  datatype Storage = Storage(configs: Entry<Recipient>, history: Entry<HistoryEntry>)

  /** `loadJSON(key, fallback)`: the parsed value, or the fallback when the key is absent,
      empty or unparseable. */
  function LoadJSON<E>(e: Entry<E>, fallback: Doc<E>): (r: Doc<E>)
    ensures e.Holds? ==> r == e.doc
    ensures !e.Holds? ==> r == fallback
  {
    match e
    case Holds(d) => d
    case _ => fallback
  }

  /** `saveJSON(key, items)`: what is written reads back as the same array, whichever
      fallback the reader passes (the page uses `null` and `[]`). */
  function Save<E>(items: seq<E>): (e: Entry<E>)
    ensures LoadJSON(e, NotArray) == Arr(items)
    ensures LoadJSON(e, Arr([])) == Arr(items)
  {
    Holds(Arr(items))
  }

  /** Whatever fallback a reader passes, a saved array reads back unchanged. */
  lemma SaveReadsBack<E>(items: seq<E>, fallback: Doc<E>)
    ensures LoadJSON(Save(items), fallback) == Arr(items)
  {
  }

  // ---------- Seeding ----------

  const HOUR_MS := 1000 * 60 * 60

  function Demo(org: string, contact: string, phone: string, email: string, t: Threshold): Fields {
    Fields(Some(org), Some(contact), Some(phone), Some(email), Some(t), Some(true))
  }

  const DEMO_RECIPIENTS: seq<Fields> := [
    Demo("BC Wildfire Service", "Director Sarah Chen", "+1 (250) 387-1234",
         "alerts@gov.bc.ca", High),
    Demo("Alberta Wildfire", "Chief Michael Thompson", "+1 (780) 427-3473",
         "emergency@alberta.ca", High),
    Demo("Parks Canada Emergency", "Regional Manager Kim Patel", "+1 (888) 773-8888",
         "emergency@pc.gc.ca", Extreme),
    Demo("Ontario Ministry Natural Resources", "Fire Centre Coordinator", "+1 (807) 475-1471",
         "firewatch@ontario.ca", Moderate)
  ]

  /** The demo history: organisation, severity and message of each entry, oldest first. */
  const DEMO_HISTORY: seq<(string, Threshold, string)> := [
    ("BC Wildfire Service", Extreme,
     "EXTREME RISK: Okanagan Mountain Park, BC — elevated fire danger. Risk score: 91."),
    ("Alberta Wildfire", High,
     "HIGH RISK: Wood Buffalo National Park, AB — elevated conditions. Risk score: 76."),
    ("Parks Canada Emergency", High,
     "HIGH RISK: Greater Vancouver Area, BC — dry + wind. Risk score: 68.")
  ]

  /** The four demo recipients, all active and created now; `ids` are the first four `uid()`
      draws. */
  function SeedRecipients(ids: seq<string>, now: int): (rs: seq<Recipient>)
    requires |ids| == 7
    ensures |rs| == 4
    ensures forall i :: 0 <= i < 4 ==>
      rs[i].id == ids[i] && rs[i].createdDate == now && rs[i].fields.isActive == Some(true)
  {
    assert forall i :: 0 <= i < 4 ==> DEMO_RECIPIENTS[i].isActive == Some(true);
    seq(4, i requires 0 <= i < 4 => Recipient(ids[i], now, DEMO_RECIPIENTS[i]))
  }

  /** The three demo history entries, six, four and two hours old, all delivered; `ids` are
      the last three `uid()` draws. */
  function SeedHistory(ids: seq<string>, now: int): (hs: seq<HistoryEntry>)
    requires |ids| == 7
    ensures |hs| == 3
    ensures forall i :: 0 <= i < 3 ==>
      hs[i].id == ids[4 + i] && hs[i].delivered && hs[i].createdDate == now - (6 - 2 * i) * HOUR_MS
  {
    seq(3, i requires 0 <= i < 3 =>
      var (org, sev, msg) := DEMO_HISTORY[i];
      HistoryEntry(ids[4 + i], now - (6 - 2 * i) * HOUR_MS, Some(org), sev, msg, true))
  }

  /** `existing && Array.isArray(existing) && existing.length > 0`, reading the recipients key
      with `null` as the fallback. */
  predicate HasRecipients(st: Storage) {
    var d := LoadJSON(st.configs, NotArray);
    d.Arr? && |d.items| > 0
  }

  /** `seedIfEmpty`: nothing happens when recipients are stored; otherwise both keys are
      overwritten with the demo data, whatever the history key held. */
  function SeedIfEmpty(st: Storage, ids: seq<string>, now: int): (r: Storage)
    requires |ids| == 7
    ensures HasRecipients(st) ==> r == st
    ensures !HasRecipients(st) ==>
      && LoadJSON(r.configs, NotArray) == Arr(SeedRecipients(ids, now))
      && LoadJSON(r.history, NotArray) == Arr(SeedHistory(ids, now))
    ensures HasRecipients(r)
  {
    if HasRecipients(st) then st
    else Storage(Save(SeedRecipients(ids, now)), Save(SeedHistory(ids, now)))
  }

  // ---------- Page state ----------

  /** The page's two state arrays next to the storage they are synchronised with. */
  datatype State = State(storage: Storage, configs: seq<Recipient>, history: seq<HistoryEntry>)

  /** A reload would read back exactly the arrays the page holds. */
  predicate Synced(s: State) {
    && LoadJSON(s.storage.configs, Arr([])) == Arr(s.configs)
    && LoadJSON(s.storage.history, Arr([])) == Arr(s.history)
  }

  /** Mounting the page: seed if needed, then read both keys with `[]` as the fallback. A
      stored value that is not an array cannot be spread by the render; that outcome is
      `None`. `ids` and `now` feed the seed. */
  function Mount(st: Storage, ids: seq<string>, now: int): (r: Option<State>)
    requires |ids| == 7
    ensures r.Some? ==> Synced(r.value) && |r.value.configs| > 0
    ensures r.Some? ==> r.value.storage == SeedIfEmpty(st, ids, now)
    ensures r.None? <==> HasRecipients(st) && st.history == Holds(NotArray)
  {
    var seeded := SeedIfEmpty(st, ids, now);
    var configs := LoadJSON(seeded.configs, Arr([]));
    var history := LoadJSON(seeded.history, Arr([]));
    if configs.Arr? && history.Arr? then Some(State(seeded, configs.items, history.items))
    else None
  }

  // ---------- Recipient list transformations ----------

  predicate HasId(cs: seq<Recipient>, id: string) {
    exists i :: 0 <= i < |cs| && cs[i].id == id
  }

  predicate UniqueIds(cs: seq<Recipient>) {
    forall i, j :: 0 <= i < j < |cs| ==> cs[i].id != cs[j].id
  }

  /** `a` is `b` with some elements deleted and the rest in their original order. */
  ghost predicate SubsequenceOf<T>(a: seq<T>, b: seq<T>)
    decreases |b|
  {
    if |a| == 0 then true
    else if |b| == 0 then false
    else (a[0] == b[0] && SubsequenceOf(a[1..], b[1..])) || SubsequenceOf(a, b[1..])
  }

  /** `configs.filter((c) => c.id !== id)`: every record with that id is gone and every other
      record keeps its multiplicity. */
  function RemoveId(cs: seq<Recipient>, id: string): (r: seq<Recipient>)
    ensures forall c :: multiset(r)[c] == if c.id == id then 0 else multiset(cs)[c]
    ensures forall c :: c in r ==> c in cs
    ensures !HasId(r, id)
    ensures !HasId(cs, id) ==> r == cs
    ensures SubsequenceOf(r, cs)
  {
    if |cs| == 0 then []
    else
      var rest := RemoveId(cs[1..], id);
      assert cs == [cs[0]] + cs[1..];
      assert !HasId(cs, id) ==> !HasId(cs[1..], id);
      if cs[0].id == id then rest else [cs[0]] + rest
  }

  /** Removing twice is removing once. */
  lemma RemoveIdIdempotent(cs: seq<Recipient>, id: string)
    ensures RemoveId(RemoveId(cs, id), id) == RemoveId(cs, id)
  {
  }

  /** `configs.map((c) => (c.id === id ? { ...c, is_active } : c))`: same length and order;
      records with that id get the flag and change in nothing else; others are untouched. */
  function SetActive(cs: seq<Recipient>, id: string, active: bool): (r: seq<Recipient>)
    ensures |r| == |cs|
    ensures forall i :: 0 <= i < |cs| && cs[i].id != id ==> r[i] == cs[i]
    ensures forall i :: 0 <= i < |cs| && cs[i].id == id ==>
      && r[i].id == cs[i].id
      && r[i].createdDate == cs[i].createdDate
      && r[i].fields.isActive == Some(active)
      && r[i].fields == cs[i].fields.(isActive := Some(active))
  {
    seq(|cs|, i requires 0 <= i < |cs| =>
      if cs[i].id == id then cs[i].(fields := cs[i].fields.(isActive := Some(active))) else cs[i])
  }

  /** Switching a recipient twice leaves the second setting. */
  lemma SetActiveLastWins(cs: seq<Recipient>, id: string, a: bool, b: bool)
    ensures SetActive(SetActive(cs, id, a), id, b) == SetActive(cs, id, b)
  {
  }

  /** `{ ...old, ...patch }` for one field: a present patch value wins, an absent one keeps
      the old value. */
  function Spread<T>(prev: Option<T>, patch: Option<T>): (r: Option<T>)
    ensures patch.Some? ==> r == patch
    ensures patch.None? ==> r == prev
  {
    if patch.Some? then patch else prev
  }

  function SpreadFields(prev: Fields, patch: Fields): Fields {
    Fields(
      Spread(prev.organizationName, patch.organizationName),
      Spread(prev.contactName, patch.contactName),
      Spread(prev.phoneNumber, patch.phoneNumber),
      Spread(prev.email, patch.email),
      Spread(prev.alertThreshold, patch.alertThreshold),
      Spread(prev.isActive, patch.isActive))
  }

  const NO_FIELDS := Fields(None, None, None, None, None, None)

  /** `{ ...c, ...data }`. */
  function Overlay(c: Recipient, data: RecipientData): Recipient {
    Recipient(data.id.GetOr(c.id), data.createdDate.GetOr(c.createdDate), SpreadFields(c.fields, data.fields))
  }

  /** Spreading is an update: an empty patch changes nothing, and two patches in a row act as
      one patch in which the later values win. */
  lemma SpreadFieldsLaws(prev: Fields, a: Fields, b: Fields)
    ensures SpreadFields(prev, NO_FIELDS) == prev
    ensures SpreadFields(SpreadFields(prev, a), b) == SpreadFields(prev, SpreadFields(a, b))
    ensures SpreadFields(SpreadFields(prev, a), a) == SpreadFields(prev, a)
  {
  }

  /** The edit branch of `upsert`: the records with the edited id get `data` spread over them,
      every other record is unchanged, and the length stays the same. */
  function EditRecipient(cs: seq<Recipient>, id: string, data: RecipientData): (r: seq<Recipient>)
    ensures |r| == |cs|
    ensures forall i :: 0 <= i < |cs| && cs[i].id != id ==> r[i] == cs[i]
    ensures forall i :: 0 <= i < |cs| && cs[i].id == id ==>
      && r[i].id == data.id.GetOr(cs[i].id)
      && r[i].createdDate == data.createdDate.GetOr(cs[i].createdDate)
      && r[i].fields == SpreadFields(cs[i].fields, data.fields)
  {
    seq(|cs|, i requires 0 <= i < |cs| => if cs[i].id == id then Overlay(cs[i], data) else cs[i])
  }

  /** The ids of a recipient list, in order. */
  function Ids(cs: seq<Recipient>): (ids: seq<string>)
    ensures |ids| == |cs|
    ensures forall i :: 0 <= i < |cs| ==> ids[i] == cs[i].id
  {
    seq(|cs|, i requires 0 <= i < |cs| => cs[i].id)
  }

  /** An edit whose data carries the edited record's own id, or no id, leaves every id where it
      was; the form always passes the edited record's own id. */
  lemma EditKeepsIds(cs: seq<Recipient>, id: string, data: RecipientData)
    requires data.id.None? || data.id == Some(id)
    ensures Ids(EditRecipient(cs, id, data)) == Ids(cs)
  {
  }

  /** The create branch of `upsert`: `{ ...data, id: uid(), created_date: now }`. The fresh id
      and time override any the data carried; the content fields are the data's. */
  function NewRecipient(data: RecipientData, freshId: string, now: int): (c: Recipient)
    ensures c.id == freshId && c.createdDate == now && c.fields == data.fields
  {
    Recipient(freshId, now, data.fields)
  }

  /** Whether `upsert` runs for a new recipient or for the one being edited. */
  datatype Mode = Create | Edit(id: string)

  /** `${data.organization_name}`: a missing name prints as `undefined`. */
  function Display(s: Option<string>): string {
    s.GetOr("undefined")
  }

  const ADDED := "Recipient added: "
  const UPDATED := "Recipient updated: "

  /** The history entry every `upsert` prepends. */
  function HistoryEntryFor(mode: Mode, data: RecipientData, freshId: string, now: int): (h: HistoryEntry)
    ensures h.id == freshId && h.createdDate == now && h.delivered
    ensures h.organizationName == data.fields.organizationName
    ensures data.fields.alertThreshold.Some? ==> h.severity == data.fields.alertThreshold.value
    ensures data.fields.alertThreshold.None? ==> h.severity == High
    ensures mode.Create? ==> h.message == ADDED + Display(data.fields.organizationName)
    ensures mode.Edit? ==> h.message == UPDATED + Display(data.fields.organizationName)
  {
    var msg := if mode.Edit? then UPDATED else ADDED;
    HistoryEntry(freshId, now, data.fields.organizationName, data.fields.alertThreshold.GetOr(High),
                 msg + Display(data.fields.organizationName), true)
  }

  // ---------- Page operations ----------

  /** `syncConfigs`: new page state, written through to storage. */
  function SyncConfigs(s: State, next: seq<Recipient>): State {
    State(s.storage.(configs := Save(next)), next, s.history)
  }

  /** `syncHistory`. */
  function SyncHistory(s: State, next: seq<HistoryEntry>): State {
    State(s.storage.(history := Save(next)), s.configs, next)
  }

  /** `remove(id)`. */
  function Remove(s: State, id: string): (r: State)
    ensures r.configs == RemoveId(s.configs, id)
    ensures r.history == s.history && r.storage.history == s.storage.history
    ensures Synced(s) ==> Synced(r)
  {
    SyncConfigs(s, RemoveId(s.configs, id))
  }

  /** `toggleActive(id, is_active)`. */
  function ToggleActive(s: State, id: string, active: bool): (r: State)
    ensures r.configs == SetActive(s.configs, id, active)
    ensures r.history == s.history && r.storage.history == s.storage.history
    ensures Synced(s) ==> Synced(r)
  {
    SyncConfigs(s, SetActive(s.configs, id, active))
  }

  /** `upsert(data)`: create or edit, then one new history entry in front. `recipientId` and
      `historyId` are the two `uid()` draws, `now` the clock. */
  function Upsert(s: State, mode: Mode, data: RecipientData,
                  recipientId: string, historyId: string, now: int): (r: State)
    ensures mode.Create? ==> r.configs == [NewRecipient(data, recipientId, now)] + s.configs
    ensures mode.Edit? ==> r.configs == EditRecipient(s.configs, mode.id, data)
    ensures r.history == [HistoryEntryFor(mode, data, historyId, now)] + s.history
    ensures Synced(r)
  {
    var next := match mode
      case Edit(id) => EditRecipient(s.configs, id, data)
      case Create => [NewRecipient(data, recipientId, now)] + s.configs;
    SyncHistory(SyncConfigs(s, next), [HistoryEntryFor(mode, data, historyId, now)] + s.history)
  }

  // ---------- Runs of operations ----------

  datatype Action =
    | RemoveAction(id: string)
    | ToggleAction(id: string, active: bool)
    | UpsertAction(mode: Mode, data: RecipientData, recipientId: string, historyId: string, now: int)

  function Apply(s: State, a: Action): State {
    match a
    case RemoveAction(id) => Remove(s, id)
    case ToggleAction(id, active) => ToggleActive(s, id, active)
    case UpsertAction(mode, data, rid, hid, now) => Upsert(s, mode, data, rid, hid, now)
  }

  function Run(s: State, acts: seq<Action>): State
    decreases |acts|
  {
    if |acts| == 0 then s else Run(Apply(s, acts[0]), acts[1..])
  }

  function CountUpserts(acts: seq<Action>): nat {
    if |acts| == 0 then 0 else (if acts[0].UpsertAction? then 1 else 0) + CountUpserts(acts[1..])
  }

  /** History is append-only: after any run, the earlier history is intact at the end and exactly
      one entry per create or edit stands in front of it. */
  lemma {:induction false} RunHistoryAppendOnly(s: State, acts: seq<Action>)
    ensures var h := Run(s, acts).history;
      |h| == |s.history| + CountUpserts(acts) && h[CountUpserts(acts)..] == s.history
    decreases |acts|
  {
    if |acts| > 0 {
      var s' := Apply(s, acts[0]);
      var pre := if acts[0].UpsertAction? then 1 else 0;
      assert s'.history[pre..] == s.history && |s'.history| == |s.history| + pre;
      RunHistoryAppendOnly(s', acts[1..]);
      var h := Run(s', acts[1..]).history;
      var c := CountUpserts(acts[1..]);
      assert h[c..] == s'.history;
      assert h[c + pre..] == s'.history[pre..];
    }
  }

  /** What a reload would read stays equal to what the page shows. */
  lemma {:induction false} RunStaysSynced(s: State, acts: seq<Action>)
    requires Synced(s)
    ensures Synced(Run(s, acts))
    decreases |acts|
  {
    if |acts| > 0 {
      RunStaysSynced(Apply(s, acts[0]), acts[1..]);
    }
  }

  /** An action keeps ids unique when a create uses an id not in the list and an edit does not
      give the record a different id (the form passes the edited record's own id). */
  predicate FreshFor(s: State, a: Action) {
    match a
    case UpsertAction(Create, _, rid, _, _) => !HasId(s.configs, rid)
    case UpsertAction(Edit(id), data, _, _, _) => data.id.None? || data.id == Some(id)
    case _ => true
  }

  predicate FreshRun(s: State, acts: seq<Action>)
    decreases |acts|
  {
    |acts| == 0 || (FreshFor(s, acts[0]) && FreshRun(Apply(s, acts[0]), acts[1..]))
  }

  lemma ApplyKeepsIdsUnique(s: State, a: Action)
    requires UniqueIds(s.configs) && FreshFor(s, a)
    ensures UniqueIds(Apply(s, a).configs)
  {
    var r := Apply(s, a).configs;
    match a
    case RemoveAction(id) => {
      forall i, j | 0 <= i < j < |r|
        ensures r[i].id != r[j].id
      {
        RemoveKeepsUnique(s.configs, id);
      }
    }
    case ToggleAction(_, _) => {}
    case UpsertAction(mode, data, rid, _, _) => {
      if mode.Create? {
        forall i, j | 0 <= i < j < |r|
          ensures r[i].id != r[j].id
        {
          if i == 0 {
            assert r[j] == s.configs[j - 1];
          } else {
            assert r[i] == s.configs[i - 1] && r[j] == s.configs[j - 1];
          }
        }
      }
    }
  }

  lemma {:induction false} RemoveKeepsUnique(cs: seq<Recipient>, id: string)
    requires UniqueIds(cs)
    ensures UniqueIds(RemoveId(cs, id))
  {
    if |cs| > 0 {
      assert UniqueIds(cs[1..]);
      RemoveKeepsUnique(cs[1..], id);
      if cs[0].id != id {
        HeadIdNotInTail(cs);
        ConsUnique(cs[0], RemoveId(cs[1..], id));
      }
    }
  }

  lemma ConsUnique(c: Recipient, rest: seq<Recipient>)
    requires UniqueIds(rest)
    requires forall d :: d in rest ==> d.id != c.id
    ensures UniqueIds([c] + rest)
  {
    var r := [c] + rest;
    forall i, j | 0 <= i < j < |r|
      ensures r[i].id != r[j].id
    {
      assert r[j] == rest[j - 1];
      if i > 0 {
        assert r[i] == rest[i - 1];
      }
    }
  }

  lemma HeadIdNotInTail(cs: seq<Recipient>)
    requires |cs| > 0 && UniqueIds(cs)
    ensures forall c :: c in cs[1..] ==> c.id != cs[0].id
  {
    forall c | c in cs[1..]
      ensures c.id != cs[0].id
    {
      var k :| 1 <= k < |cs| && cs[k] == c;
    }
  }

  /** Uniqueness of recipient ids holds throughout any run whose creates use fresh ids. */
  lemma {:induction false} RunKeepsIdsUnique(s: State, acts: seq<Action>)
    requires UniqueIds(s.configs) && FreshRun(s, acts)
    ensures UniqueIds(Run(s, acts).configs)
    decreases |acts|
  {
    if |acts| > 0 {
      ApplyKeepsIdsUnique(s, acts[0]);
      RunKeepsIdsUnique(Apply(s, acts[0]), acts[1..]);
    }
  }

  // ---------- Reloading ----------

  /** Seeding happens once: mounting again on what a mount left behind reads the same state. */
  lemma SeedOnce(st: Storage, ids: seq<string>, now: int, ids2: seq<string>, now2: int)
    requires |ids| == 7 && |ids2| == 7
    requires Mount(st, ids, now).Some?
    ensures Mount(Mount(st, ids, now).value.storage, ids2, now2) == Mount(st, ids, now)
  {
  }

  /** A reload of a synced page with at least one recipient shows the same state. */
  lemma ReloadShowsSameState(s: State, ids: seq<string>, now: int)
    requires |ids| == 7 && Synced(s) && |s.configs| > 0
    ensures Mount(s.storage, ids, now) == Some(s)
  {
  }

  /** After every recipient is removed, a reload seeds again and the demo history replaces
      the stored one, so history is append-only only within one page session. */
  lemma ReloadAfterRemovingAllReseeds(s: State, ids: seq<string>, now: int)
    requires |ids| == 7 && Synced(s) && s.configs == []
    ensures Mount(s.storage, ids, now).Some?
    ensures Mount(s.storage, ids, now).value.configs == SeedRecipients(ids, now)
    ensures Mount(s.storage, ids, now).value.history == SeedHistory(ids, now)
  {
  }

  // ---------- Display ----------

  function RecipientCreated(c: Recipient): int {
    c.createdDate
  }

  function EntryCreated(h: HistoryEntry): int {
    h.createdDate
  }

  /** `sortedConfigs`: a newest-first copy; the stored list keeps its insertion order. */
  function SortedConfigs(cs: seq<Recipient>): (r: seq<Recipient>)
    ensures |r| == |cs| && multiset(r) == multiset(cs)
    ensures Sorting.SortedDesc(r, RecipientCreated)
  {
    Sorting.SortDesc(cs, RecipientCreated)
  }

  /** `sortedHistory`: a newest-first copy of the history. */
  function SortedHistory(hs: seq<HistoryEntry>): (r: seq<HistoryEntry>)
    ensures |r| == |hs| && multiset(r) == multiset(hs)
    ensures Sorting.SortedDesc(r, EntryCreated)
  {
    Sorting.SortDesc(hs, EntryCreated)
  }

  /** The demo history is shown in reverse of its stored order: newest (two hours old)
      first. */
  lemma SeedHistoryShownNewestFirst(ids: seq<string>, now: int)
    requires |ids| == 7
    ensures var hs := SeedHistory(ids, now);
      SortedHistory(hs) == [hs[2], hs[1], hs[0]]
  {
    var hs := SeedHistory(ids, now);
    Sorting.SortAscendingReverses(hs, EntryCreated);
  }

  datatype Tone = Red | Orange | Amber

  /** `severityTone`: the badge colour of a history entry. */
  function SeverityTone(sev: Threshold): Tone {
    if sev == Extreme then Red else if sev == High then Orange else Amber
  }

  /** `thresholdLabel`: anything that is not `extreme` or `high`, a missing threshold included,
      reads as moderate. */
  function ThresholdLabel(t: Option<Threshold>): string {
    if t == Some(Extreme) then "Extreme only"
    else if t == Some(High) then "High & above"
    else "Moderate & above"
  }

  /** Each severity has its own colour and each threshold its own label. */
  lemma LabelsDistinguish(a: Threshold, b: Threshold)
    requires a != b
    ensures SeverityTone(a) != SeverityTone(b)
    ensures ThresholdLabel(Some(a)) != ThresholdLabel(Some(b))
  {
  }

  /** A recipient saved without a threshold is labelled "Moderate & above", while the history
      entry for that save records severity high. */
  lemma MissingThresholdReadsTwoWays(mode: Mode, data: RecipientData, hid: string, now: int)
    requires data.fields.alertThreshold.None?
    ensures ThresholdLabel(data.fields.alertThreshold) == ThresholdLabel(Some(Moderate))
    ensures HistoryEntryFor(mode, data, hid, now).severity == High
  {
  }
}
