/** The store card of components/store-card.tsx: the link, title, document
    counts and size a store is summarised by. */
module StoreCard {
  import opened Common
  import opened Strings
  import opened Sizes
  import ChatRoute

  /** `getStoreId`: the last segment of the resource name, or the whole
      name when that segment is empty. */
  function GetStoreId(name: string): (id: string)
    ensures '/' !in name ==> id == name
    ensures id != name ==> id != "" && '/' !in id && |id| < |name| && name == name[..|name| - |id|] + id
    ensures id != name ==> name[|name| - |id| - 1] == '/'
    ensures '/' in name && name[|name| - 1] != '/' ==> id != name
  {
    var id := LastSegmentOrWhole(name);
    assert id != name ==> name == name[..|name| - |id|] + name[|name| - |id|..];
    id
  }

  /** The id a card links to is the one the chat endpoint turns back into
      the store's resource name. */
  lemma StoreIdRoundTrip(id: string)
    requires '/' !in id && id != ""
    ensures GetStoreId(ChatRoute.StoreNamePrefix + id) == id
  {
    assert ChatRoute.StoreNamePrefix + id == "fileSearchStores" + "/" + id;
    LastSegmentOfPath("fileSearchStores", id);
  }

  /** A count field: `parseInt(field || "0", 10)`, with `None` for NaN. */
  function Count(field: Option<string>): (n: Option<int>)
    ensures !Truthy(field) ==> n == Some(0)
    ensures Truthy(field) ==> n == ParseInt(field.value)
  {
    if Truthy(field) then ParseInt(field.value)
    else
      assert AllDigits("0") && DigitsValue("0") == 0;
      ParseInt("0")
  }

  /** `activeCount + pendingCount + failedCount`; NaN when any is NaN. */
  function Sum(a: Option<int>, p: Option<int>, f: Option<int>): (t: Option<int>)
    ensures t.Some? <==> a.Some? && p.Some? && f.Some?
    ensures t.Some? ==> t.value == a.value + p.value + f.value
  {
    if a.Some? && p.Some? && f.Some? then Some(a.value + p.value + f.value) else None
  }

  /** The total shown as "<n> docs". */
  function Total(store: FileSearchStore): Option<int> {
    Sum(Count(store.activeDocumentsCount), Count(store.pendingDocumentsCount), Count(store.failedDocumentsCount))
  }

  datatype CountBadge = ActiveBadge(n: int) | PendingBadge(n: int) | FailedBadge(n: int) | EmptyBadge

  /** A count's badge is shown only for a number above zero. */
  predicate Positive(n: Option<int>) {
    n.Some? && n.value > 0
  }

  /** The badge row for three counts: one badge per positive count, in the
      order active, pending, failed, then "Empty" when the total is zero. */
  function BadgeRow(a: Option<int>, p: Option<int>, f: Option<int>): seq<CountBadge> {
    (if Positive(a) then [ActiveBadge(a.value)] else [])
    + (if Positive(p) then [PendingBadge(p.value)] else [])
    + (if Positive(f) then [FailedBadge(f.value)] else [])
    + (if Sum(a, p, f) == Some(0) then [EmptyBadge] else [])
  }

  /** Each count's badge is shown exactly when that count is above zero,
      carrying that count, and "Empty" exactly when the total is zero. */
  lemma BadgeRowShows(a: Option<int>, p: Option<int>, f: Option<int>)
    ensures var bs := BadgeRow(a, p, f);
      && |bs| <= 4
      && (EmptyBadge in bs <==> Sum(a, p, f) == Some(0))
      && (Positive(a) ==> ActiveBadge(a.value) in bs)
      && (Positive(p) ==> PendingBadge(p.value) in bs)
      && (Positive(f) ==> FailedBadge(f.value) in bs)
      && (forall b :: b in bs && b.ActiveBadge? ==> Positive(a) && Some(b.n) == a)
      && (forall b :: b in bs && b.PendingBadge? ==> Positive(p) && Some(b.n) == p)
      && (forall b :: b in bs && b.FailedBadge? ==> Positive(f) && Some(b.n) == f)
  {
    var active := if Positive(a) then [ActiveBadge(a.value)] else [];
    var pending := if Positive(p) then [PendingBadge(p.value)] else [];
    var failed := if Positive(f) then [FailedBadge(f.value)] else [];
    var empty := if Sum(a, p, f) == Some(0) then [EmptyBadge] else [];
    assert BadgeRow(a, p, f) == active + pending + failed + empty;
    InFour(active, pending, failed, empty);
  }

  lemma InFour(w: seq<CountBadge>, x: seq<CountBadge>, y: seq<CountBadge>, z: seq<CountBadge>)
    ensures forall b :: b in w + x + y + z <==> b in w || b in x || b in y || b in z
  {
  }

  function Badges(store: FileSearchStore): seq<CountBadge> {
    BadgeRow(Count(store.activeDocumentsCount), Count(store.pendingDocumentsCount), Count(store.failedDocumentsCount))
  }

  /** With counts that are numbers and not negative, "Empty" is shown
      exactly when no count badge is, and then it is the only badge. */
  lemma EmptyIffNoCountBadges(a: Option<int>, p: Option<int>, f: Option<int>)
    requires a.Some? && p.Some? && f.Some? && a.value >= 0 && p.value >= 0 && f.value >= 0
    ensures Sum(a, p, f) == Some(0) <==> BadgeRow(a, p, f) == [EmptyBadge]
    ensures Sum(a, p, f) != Some(0) <==> BadgeRow(a, p, f) != [] && EmptyBadge !in BadgeRow(a, p, f)
  {
    BadgeRowShows(a, p, f);
  }

  /** A count field the server fills with digits, or leaves out. */
  predicate DigitsOrAbsent(field: Option<string>) {
    field.None? || AllDigits(field.value)
  }

  /** Counts in digits are never NaN nor negative, so for them the card
      shows "Empty" exactly when it shows no count badge. */
  lemma EmptyIffNoCounts(store: FileSearchStore)
    requires DigitsOrAbsent(store.activeDocumentsCount) && DigitsOrAbsent(store.pendingDocumentsCount)
    requires DigitsOrAbsent(store.failedDocumentsCount)
    ensures Total(store).Some? && Total(store).value >= 0
    ensures Total(store) == Some(0) <==> Badges(store) == [EmptyBadge]
    ensures Total(store) != Some(0) ==> Badges(store) != [] && EmptyBadge !in Badges(store)
  {
    CountOfDigits(store.activeDocumentsCount);
    CountOfDigits(store.pendingDocumentsCount);
    CountOfDigits(store.failedDocumentsCount);
    EmptyIffNoCountBadges(Count(store.activeDocumentsCount), Count(store.pendingDocumentsCount),
                          Count(store.failedDocumentsCount));
  }

  lemma CountOfDigits(field: Option<string>)
    requires DigitsOrAbsent(field)
    ensures Count(field).Some? && Count(field).value >= 0
  {
    assert AllDigits("0") && DigitsValue("0") == 0;
  }

  /** A negative count can cancel a positive one: the card then shows both
      a count badge and "Empty". */
  lemma NegativeCountsShowEmpty()
    ensures var store := FileSearchStore("fileSearchStores/s", None, Some("1"), Some("-1"), None, None);
      Badges(store) == [ActiveBadge(1), EmptyBadge]
  {
    var store := FileSearchStore("fileSearchStores/s", None, Some("1"), Some("-1"), None, None);
    assert Count(store.activeDocumentsCount) == Some(1) by {
      assert AllDigits("1") && DigitsValue("1") == 1;
    }
    CountMinusOne();
    BadgeRowMinusOne();
  }

  lemma CountMinusOne()
    ensures Count(Some("-1")) == Some(-1)
  {
    assert IntToString(-1) == "-1";
    ParseIntOfIntToString(-1);
  }

  lemma BadgeRowMinusOne()
    ensures BadgeRow(Some(1), Some(-1), Some(0)) == [ActiveBadge(1), EmptyBadge]
  {
  }

  /** `formatBytes` of the card: "0 B" for a missing or empty size. */
  function FormatBytes(bytes: Option<string>): (l: SizeLabel)
    ensures !Truthy(bytes) ==> l == ZeroBytes
    ensures Truthy(bytes) ==> l == Scale(bytes.value)
    ensures l != Dash
  {
    if Truthy(bytes) then Scale(bytes.value) else ZeroBytes
  }

  /** The card: its link target, title, subtitle, document total, size and badges. */
  datatype CardView = CardView(
    href: string,
    title: string,
    subtitle: string,
    totalDocs: Option<int>,
    size: SizeLabel,
    badges: seq<CountBadge>)

  function Card(store: FileSearchStore): (v: CardView)
    ensures v.href == "/stores/" + GetStoreId(store.name)
    ensures v.title == (if Truthy(store.displayName) then store.displayName.value else GetStoreId(store.name))
    ensures v.subtitle == GetStoreId(store.name)
    ensures v.totalDocs == Total(store)
    ensures v.size == FormatBytes(store.sizeBytes)
    ensures v.badges == Badges(store)
  {
    var id := GetStoreId(store.name);
    CardView("/stores/" + id, if Truthy(store.displayName) then store.displayName.value else id,
             id, Total(store), FormatBytes(store.sizeBytes), Badges(store))
  }

  /** The card of a store named "fileSearchStores/<id>" links to "/stores/<id>". */
  lemma CardLinksToStore(store: FileSearchStore, id: string)
    requires store.name == ChatRoute.StoreNamePrefix + id && '/' !in id && id != ""
    ensures Card(store).href == "/stores/" + id
  {
    StoreIdRoundTrip(id);
  }
}
