/** The document table of components/document-list.tsx: what each row
    shows for a document and what deleting one does. */
module DocumentList {
  import opened Common
  import opened Strings
  import opened Sizes
  import UseDocuments

  /** `getDocId`: the last segment of the resource name, or the whole name
      when that segment is empty. */
  function GetDocId(name: string): (id: string)
    ensures '/' !in name ==> id == name
    ensures id != name ==> id != "" && '/' !in id && |id| < |name| && name == name[..|name| - |id|] + id
    ensures id != name ==> name[|name| - |id| - 1] == '/'
    ensures '/' in name && name[|name| - 1] != '/' ==> id != name
  {
    var id := LastSegmentOrWhole(name);
    assert id != name ==> name == name[..|name| - |id|] + name[|name| - |id|..];
    id
  }

  /** The id read off "fileSearchStores/<store>/documents/<id>" is `<id>`. */
  lemma DocIdOfName(storeId: string, id: string)
    requires '/' !in id && id != ""
    ensures GetDocId("fileSearchStores/" + storeId + "/documents/" + id) == id
  {
    var prefix := "fileSearchStores/" + storeId + "/documents";
    assert "fileSearchStores/" + storeId + "/documents/" + id == prefix + "/" + id;
    LastSegmentOfPath(prefix, id);
  }

  /** The document states the table distinguishes. */
  datatype Status = Active | Failed | Pending | Unknown

  function StatusOf(state: Option<string>): (st: Status)
    ensures st == Active <==> state == Some("STATE_ACTIVE")
    ensures st == Failed <==> state == Some("STATE_FAILED")
    ensures st == Pending <==> state == Some("STATE_PENDING")
  {
    if state == Some("STATE_ACTIVE") then Active
    else if state == Some("STATE_FAILED") then Failed
    else if state == Some("STATE_PENDING") then Pending
    else Unknown
  }

  datatype Icon = CheckCircle | CrossCircle | Spinner | ClockIcon

  /** `StatusIcon` */
  function StatusIcon(state: Option<string>): (icon: Icon)
    ensures icon == CheckCircle <==> state == Some("STATE_ACTIVE")
    ensures icon == CrossCircle <==> state == Some("STATE_FAILED")
    ensures icon == Spinner <==> state == Some("STATE_PENDING")
    ensures icon == ClockIcon <==> StatusOf(state) == Unknown
  {
    match StatusOf(state)
    case Active => CheckCircle
    case Failed => CrossCircle
    case Pending => Spinner
    case Unknown => ClockIcon
  }

  /** `StatusBadge`'s caption. */
  function StatusBadge(state: Option<string>): (caption: string)
    ensures caption == "Active" <==> state == Some("STATE_ACTIVE")
    ensures caption == "Failed" <==> state == Some("STATE_FAILED")
    ensures caption == "Pending" <==> state == Some("STATE_PENDING")
    ensures caption == "Unknown" <==> StatusOf(state) == Unknown
  {
    match StatusOf(state)
    case Active => "Active"
    case Failed => "Failed"
    case Pending => "Pending"
    case Unknown => "Unknown"
  }

  /** Icon and badge always tell the same state apart: two documents get
      the same icon exactly when they get the same badge. */
  lemma IconMatchesBadge(a: Option<string>, b: Option<string>)
    ensures StatusIcon(a) == StatusIcon(b) <==> StatusBadge(a) == StatusBadge(b)
  {
  }

  /** The name cell: the display name when it is non-empty, else the id. */
  function DisplayName(doc: FileSearchDocument): (s: string)
    ensures Truthy(doc.displayName) ==> s == doc.displayName.value
    ensures !Truthy(doc.displayName) ==> s == GetDocId(doc.name)
  {
    if Truthy(doc.displayName) then doc.displayName.value else GetDocId(doc.name)
  }

  /** A badge under the name: an entry's key and value, or "+n more". */
  datatype MetadataBadge = EntryBadge(key: string, value: Option<string>) | MoreBadge(count: nat)

  /** `meta.stringValue || meta.numericValue` as rendered: a non-empty string
      value, else the number (0 included), else nothing. */
  function BadgeValue(m: CustomMetadata): (v: Option<string>)
    ensures Truthy(m.stringValue) ==> v == m.stringValue
    ensures !Truthy(m.stringValue) && m.numericValue.Some? ==> v == Some(IntToString(m.numericValue.value))
    ensures !Truthy(m.stringValue) && m.numericValue.Some? ==> v.Some? && ParseInt(v.value) == m.numericValue
    ensures !Truthy(m.stringValue) && m.numericValue.None? ==> v.None?
  {
    if Truthy(m.stringValue) then m.stringValue
    else if m.numericValue.Some? then
      ParseIntOfIntToString(m.numericValue.value);
      Some(IntToString(m.numericValue.value))
    else None
  }

  function EntryBadges(ms: seq<CustomMetadata>): (bs: seq<MetadataBadge>)
    ensures |bs| == |ms|
    ensures forall i :: 0 <= i < |ms| ==> bs[i] == EntryBadge(ms[i].key, BadgeValue(ms[i]))
  {
    if ms == [] then [] else EntryBadges(ms[..|ms| - 1]) + [EntryBadge(ms[|ms| - 1].key, BadgeValue(ms[|ms| - 1]))]
  }

  /** The badges under a document's name: the first three entries, then a
      "+n more" badge counting the rest; none without metadata. */
  function MetadataBadges(metadata: Option<seq<CustomMetadata>>): (bs: seq<MetadataBadge>)
    ensures metadata.None? || metadata.value == [] ==> bs == []
    ensures metadata.Some? && |metadata.value| <= 3 ==> bs == EntryBadges(metadata.value)
    ensures metadata.Some? && |metadata.value| > 3 ==>
              && |bs| == 4
              && bs[..3] == EntryBadges(metadata.value[..3])
              && bs[3] == MoreBadge(|metadata.value| - 3)
  {
    if metadata.None? then []
    else
      var ms := metadata.value;
      if |ms| <= 3 then EntryBadges(ms)
      else
        var bs := EntryBadges(ms[..3]) + [MoreBadge(|ms| - 3)];
        assert bs[..3] == EntryBadges(ms[..3]);
        bs
  }

  /** The badges account for every entry: the shown ones plus the count in
      "+n more" is the number of entries. */
  lemma BadgesCountEntries(metadata: Option<seq<CustomMetadata>>)
    requires metadata.Some?
    ensures var bs := MetadataBadges(metadata);
      |metadata.value| == |bs| - (if |bs| == 4 then 1 else 0) + (if |bs| == 4 then bs[3].count else 0)
    ensures forall i :: 0 <= i < |MetadataBadges(metadata)| && i < 3 ==>
              MetadataBadges(metadata)[i] == EntryBadge(metadata.value[i].key, BadgeValue(metadata.value[i]))
  {
    var ms := metadata.value;
    if |ms| > 3 {
      var bs := MetadataBadges(metadata);
      forall i | 0 <= i < 3
        ensures bs[i] == EntryBadge(ms[i].key, BadgeValue(ms[i]))
      {
        assert bs[i] == bs[..3][i];
        assert ms[..3][i] == ms[i];
      }
    }
  }

  /** The type cell: the part of the MIME type after its last '/', or a
      dash when there is none. */
  function TypeLabel(mimeType: Option<string>): (s: string)
    ensures mimeType.None? ==> s == "—"
    ensures mimeType.Some? && LastSegment(mimeType.value) != "" ==> s == LastSegment(mimeType.value)
    ensures mimeType.Some? && LastSegment(mimeType.value) == "" ==> s == "—"
    ensures s != "—" ==> '/' !in s
  {
    if mimeType.Some? && LastSegment(mimeType.value) != "" then LastSegment(mimeType.value) else "—"
  }

  /** `formatBytes` of the table: a dash for a missing or empty size. */
  function FormatBytes(bytes: Option<string>): (l: SizeLabel)
    ensures !Truthy(bytes) <==> l == Dash
    ensures Truthy(bytes) ==> l == Scale(bytes.value)
  {
    if Truthy(bytes) then Scale(bytes.value) else Dash
  }

  /** One table row. */
  datatype RowView = RowView(
    key: string,
    icon: Icon,
    name: string,
    badges: seq<MetadataBadge>,
    status: string,
    size: SizeLabel,
    fileType: string,
    deleteId: string)

  function Row(doc: FileSearchDocument): RowView {
    RowView(doc.name, StatusIcon(doc.state), DisplayName(doc), MetadataBadges(doc.customMetadata),
            StatusBadge(doc.state), FormatBytes(doc.sizeBytes), TypeLabel(doc.mimeType), GetDocId(doc.name))
  }

  /** The component's output: an empty state, or one row per document. */
  datatype ListView = EmptyState | Table(rows: seq<RowView>)

  function RenderList(docs: seq<FileSearchDocument>): (v: ListView)
    ensures docs == [] <==> v == EmptyState
    ensures v.Table? ==> |v.rows| == |docs| && forall i :: 0 <= i < |docs| ==> v.rows[i] == Row(docs[i])
  {
    if docs == [] then EmptyState else Table(seq(|docs|, i requires 0 <= i < |docs| => Row(docs[i])))
  }

  /** Each row's delete button targets the id its document's name ends in. */
  lemma DeleteTargetsOwnDocument(docs: seq<FileSearchDocument>, i: int, storeId: string, id: string)
    requires 0 <= i < |docs|
    requires docs[i].name == "fileSearchStores/" + storeId + "/documents/" + id && '/' !in id && id != ""
    ensures RenderList(docs).rows[i].deleteId == id
  {
    DocIdOfName(storeId, id);
  }

  /** `handleDelete` once the delete request settles: the notice shown and
      the caches refreshed. */
  function DeleteSettled(storeId: string, deleted: Result<()>): (r: (Toast, seq<UseDocuments.QueryKey>))
    ensures deleted.Ok? ==> r.0 == SuccessToast("Document deleted")
    ensures deleted.Err? ==> r.0 == ErrorToast(MessageOr(deleted.failure, "Failed to delete document"))
    ensures r.1 == UseDocuments.DeleteInvalidations(storeId, deleted)
  {
    (match deleted
     case Ok(_) => SuccessToast("Document deleted")
     case Err(f) => ErrorToast(MessageOr(f, "Failed to delete document")),
     UseDocuments.DeleteInvalidations(storeId, deleted))
  }

}
