/**
 * Loading the My Requests list: a requests folder is projected into a flat
 * list of records according to the configured folder-structure mode, and a
 * missing folder falls back to a fixed two-record sample set.
 */
module Projection {
  import opened Outcomes
  import opened Text
  import opened Records

  // The four folder-structure modes; any other value projects nothing.
  const FolderAsName := "folderAsName"
  const SubfolderStructure := "subfolderStructure"
  const FileName := "fileName"
  const MetadataTitle := "metadataTitle"

  /** The modes that yield one record per document. */
  predicate PerDocumentMode(mode: string) {
    mode == SubfolderStructure || mode == FileName || mode == MetadataTitle
  }

  /** `RH-${folderName.toUpperCase()}` */
  function FolderToken(folderName: string): string {
    "RH-" + ToUpper(folderName)
  }

  /** `RH-${folderName.toUpperCase()}-${index + 1}` */
  function DocumentToken(folderName: string, index: nat): string {
    FolderToken(folderName) + "-" + NatToString(index + 1)
  }

  /** `xs || []` for an optional list. */
  function OrEmpty<T>(xs: Option<seq<T>>): seq<T> {
    if xs.Some? then xs.value else []
  }

  /** `folderInfo.documents?.[0]?.path || ''` */
  function FirstDocumentPath(info: FolderInfo): string {
    var docs := OrEmpty(info.documents);
    if |docs| > 0 then docs[0].path else ""
  }

  /** `folderInfo.contentFragments?.[0]?.path || ''` */
  function FirstFragmentPath(info: FolderInfo): string {
    var frags := OrEmpty(info.contentFragments);
    if |frags| > 0 then frags[0].path else ""
  }

  /** The record of a folder in `folderAsName` mode. */
  function FolderRecord(folderName: string, info: FolderInfo): Request {
    Request(
      id := FolderToken(folderName),
      title := info.title,
      description := "Request for " + ToLower(info.title),
      kind := "request",
      status := info.status,
      dateCreated := info.dateCreated,
      dateModified := info.dateModified,
      documentType := "request",
      referenceNumber := FolderToken(folderName),
      aemPath := FirstDocumentPath(info),
      contentFragment := FirstFragmentPath(info),
      folderName := Some(folderName),
      fileName := None,
      documents := Some(OrEmpty(info.documents)),
      contentFragments := Some(OrEmpty(info.contentFragments)))
  }

  /** The title a per-document mode gives the record of doc. */
  function DocumentTitle(mode: string, info: FolderInfo, doc: Document): string {
    if mode == FileName then StripExtension(doc.name)
    else if mode == MetadataTitle && doc.metadataTitle.Some? && doc.metadataTitle.value != "" then
      doc.metadataTitle.value
    else info.title
  }

  /** The description a per-document mode gives the record of doc. */
  function DocumentDescription(mode: string, info: FolderInfo, doc: Document): string {
    if mode == FileName then "File from " + info.title + " folder"
    else if mode == MetadataTitle then "Document from " + info.title
    else "Document: " + StripExtension(doc.name) + " from " + info.title
  }

  /** The record of the document at position index of a folder. */
  function DocumentRecord(mode: string, folderName: string, info: FolderInfo, doc: Document, index: nat): Request {
    Request(
      id := DocumentToken(folderName, index),
      title := DocumentTitle(mode, info, doc),
      description := DocumentDescription(mode, info, doc),
      kind := "request",
      status := info.status,
      dateCreated := info.dateCreated,
      dateModified := info.dateModified,
      documentType := doc.kind,
      referenceNumber := DocumentToken(folderName, index),
      aemPath := doc.path,
      contentFragment := FirstFragmentPath(info),
      folderName := Some(folderName),
      fileName := Some(doc.name),
      documents := None,
      contentFragments := None)
  }

  /**
   * The records one sub-folder contributes. `folderAsName` gives exactly one
   * record carrying the folder's title, status and dates; the per-document
   * modes give one record per document, in document order, numbered from 1;
   * any other mode gives none.
   */
  function ProjectFolder(mode: string, folderName: string, info: FolderInfo): (r: seq<Request>)
    ensures mode == FolderAsName ==>
      && |r| == 1
      && r[0].id == r[0].referenceNumber == "RH-" + ToUpper(folderName)
      && r[0].title == info.title
      && r[0].status == info.status
      && r[0].dateCreated == info.dateCreated
      && r[0].dateModified == info.dateModified
      && r[0].documentType == "request"
      && r[0].description == "Request for " + ToLower(info.title)
    ensures PerDocumentMode(mode) ==>
      && |r| == |OrEmpty(info.documents)|
      && forall i :: 0 <= i < |r| ==>
           && r[i].id == r[i].referenceNumber == "RH-" + ToUpper(folderName) + "-" + NatToString(i + 1)
           && r[i].status == info.status
           && r[i].dateCreated == info.dateCreated
           && r[i].dateModified == info.dateModified
           && r[i].documentType == OrEmpty(info.documents)[i].kind
           && r[i].aemPath == OrEmpty(info.documents)[i].path
           && r[i].fileName == Some(OrEmpty(info.documents)[i].name)
    ensures mode == SubfolderStructure ==> forall i :: 0 <= i < |r| ==>
      && r[i].title == info.title
      && r[i].description == "Document: " + StripExtension(OrEmpty(info.documents)[i].name) + " from " + info.title
    ensures mode == FileName ==> forall i :: 0 <= i < |r| ==>
      && r[i].title == StripExtension(OrEmpty(info.documents)[i].name)
      && r[i].description == "File from " + info.title + " folder"
    ensures mode == MetadataTitle ==> forall i :: 0 <= i < |r| ==>
      && r[i].title == (match OrEmpty(info.documents)[i].metadataTitle
                        case Some(t) => if t == "" then info.title else t
                        case None => info.title)
      && r[i].description == "Document from " + info.title
    ensures mode != FolderAsName && !PerDocumentMode(mode) ==> r == []
  {
    if mode == FolderAsName then [FolderRecord(folderName, info)]
    else if PerDocumentMode(mode) then
      var docs := OrEmpty(info.documents);
      seq(|docs|, i requires 0 <= i < |docs| => DocumentRecord(mode, folderName, info, docs[i], i))
    else []
  }

  /** The number of documents across the given sub-folders. */
  function DocumentCount(children: seq<(string, FolderInfo)>): nat {
    if |children| == 0 then 0
    else |OrEmpty(children[0].1.documents)| + DocumentCount(children[1..])
  }

  /**
   * The records of all sub-folders in listing order. `folderAsName` yields one
   * record per folder, in folder order; a per-document mode yields one record
   * per document; an unknown mode yields nothing.
   */
  function ProjectChildren(mode: string, children: seq<(string, FolderInfo)>): (r: seq<Request>)
    ensures mode == FolderAsName ==> |r| == |children|
    ensures mode == FolderAsName ==> forall i :: 0 <= i < |r| ==>
      && r[i].id == r[i].referenceNumber == "RH-" + ToUpper(children[i].0)
      && r[i].title == children[i].1.title
      && r[i].status == children[i].1.status
      && r[i].dateCreated == children[i].1.dateCreated
      && r[i].dateModified == children[i].1.dateModified
      && r[i].documentType == "request"
    ensures PerDocumentMode(mode) ==> |r| == DocumentCount(children)
    ensures mode != FolderAsName && !PerDocumentMode(mode) ==> r == []
  {
    if |children| == 0 then []
    else ProjectFolder(mode, children[0].0, children[0].1) + ProjectChildren(mode, children[1..])
  }

  /** The records of two listings run one after the other are the records of each, in turn. */
  lemma {:induction false} ProjectChildrenAppend(mode: string, a: seq<(string, FolderInfo)>, b: seq<(string, FolderInfo)>)
    ensures ProjectChildren(mode, a + b) == ProjectChildren(mode, a) + ProjectChildren(mode, b)
  {
    if |a| > 0 {
      assert (a + b)[0] == a[0];
      assert (a + b)[1..] == a[1..] + b;
      ProjectChildrenAppend(mode, a[1..], b);
    } else {
      assert a + b == b;
    }
  }

  /**
   * In a per-document mode the records come folder by folder in listing
   * order: document j of folder i is the record at the position after all
   * documents of the earlier folders, and it is that folder's record j.
   */
  lemma DocumentRecordPosition(mode: string, children: seq<(string, FolderInfo)>, i: int, j: int)
    requires PerDocumentMode(mode)
    requires 0 <= i < |children| && 0 <= j < |OrEmpty(children[i].1.documents)|
    ensures DocumentCount(children[..i]) + j < |ProjectChildren(mode, children)|
    ensures ProjectChildren(mode, children)[DocumentCount(children[..i]) + j]
         == ProjectFolder(mode, children[i].0, children[i].1)[j]
  {
    var tail := [children[i]] + children[i + 1..];
    var before := ProjectChildren(mode, children[..i]);
    var folder := ProjectFolder(mode, children[i].0, children[i].1);
    var after := ProjectChildren(mode, children[i + 1..]);
    SplitAround(children, i);
    ProjectChildrenAppend(mode, children[..i], tail);
    ProjectChildrenCons(mode, tail);
    ConcatIndex(before, folder + after, j);
  }

  /** A sequence is what comes before position i, the element there, and what follows. */
  lemma SplitAround<T>(s: seq<T>, i: int)
    requires 0 <= i < |s|
    ensures s == s[..i] + ([s[i]] + s[i + 1..])
    ensures ([s[i]] + s[i + 1..])[0] == s[i] && ([s[i]] + s[i + 1..])[1..] == s[i + 1..]
  {
  }

  /** The records of a non-empty listing are its first folder's followed by the rest's. */
  lemma ProjectChildrenCons(mode: string, children: seq<(string, FolderInfo)>)
    requires |children| > 0
    ensures ProjectChildren(mode, children)
         == ProjectFolder(mode, children[0].0, children[0].1) + ProjectChildren(mode, children[1..])
  {
  }

  /** Indexing past the first part of a concatenation indexes the second. */
  lemma ConcatIndex<T>(a: seq<T>, b: seq<T>, k: int)
    requires 0 <= k < |b|
    ensures |a| + k < |a + b| && (a + b)[|a| + k] == b[k]
  {
  }

  /** Why loading from the folder failed: `Folder not found: <path>`. */
  datatype LoadError = FolderNotFound(path: string)

  /**
   * `loadItemsFromFolder`: looks the configured path up in the folder data and
   * projects its sub-folders; an unknown path throws.
   */
  function LoadItemsFromFolder(folderData: map<string, Listing>, path: string, mode: string): (r: Result<seq<Request>, LoadError>)
    ensures path !in folderData <==> r == Err(FolderNotFound(path))
    ensures path in folderData ==> r.Ok?
    ensures r.Ok? ==> r.value == ProjectChildren(mode, folderData[path].children)
  {
    if path !in folderData then Err(FolderNotFound(path))
    else Ok(ProjectChildren(mode, folderData[path].children))
  }

  /**
   * `getSampleData`: the fallback list shown when the folder cannot be loaded.
   * Long texts are written as concatenations of short pieces, which the
   * verifier handles far more cheaply than one long literal.
   */
  function SampleData(): (r: seq<Request>)
    ensures |r| == 2
  {
    [ Request(
        id := "RH-ABC123-DEF",
        title := ("Industrial " + "Automation System " + "Design"),
        description := ("Request for " + "design services " + "for a new " + "industrial " + "automation system " + "including PLC " + "programming and " + "HMI interface."),
        kind := "request",
        status := "in-progress",
        dateCreated := 1705314600000,   // 2024-01-15T10:30:00Z
        dateModified := 1705761900000,  // 2024-01-20T14:45:00Z
        documentType := "request",
        referenceNumber := "RH-ABC123-DEF",
        aemPath := ("/content/dam/" + "rs-thinkhub/" + "requests/" + "industrial-" + "automation-design.pdf"),
        contentFragment := ("/content/dam/" + "rs-thinkhub/" + "fragments/" + "automation-requirements"),
        folderName := None,
        fileName := None,
        documents := None,
        contentFragments := None),
      Request(
        id := "RH-XYZ789-GHI",
        title := ("Power " + "Distribution " + "Components " + "Selection"),
        description := ("Need assistance " + "selecting " + "appropriate power " + "distribution " + "components for a " + "480V 3-phase " + "system."),
        kind := "request",
        status := "completed",
        dateCreated := 1704878100000,   // 2024-01-10T09:15:00Z
        dateModified := 1705594800000,  // 2024-01-18T16:20:00Z
        documentType := "request",
        referenceNumber := "RH-XYZ789-GHI",
        aemPath := ("/content/dam/" + "rs-thinkhub/" + "requests/" + "power-distribution-" + "selection.pdf"),
        contentFragment := ("/content/dam/" + "rs-thinkhub/" + "fragments/" + "power-requirements"),
        folderName := None,
        fileName := None,
        documents := None,
        contentFragments := None) ]
  }

  /**
   * `loadItems`: the projected folder when the path is known, otherwise the
   * sample set; the error never escapes.
   */
  function LoadItems(folderData: map<string, Listing>, path: string, mode: string): (r: seq<Request>)
    ensures path in folderData ==> LoadItemsFromFolder(folderData, path, mode) == Ok(r)
    ensures path !in folderData ==> r == SampleData()
  {
    var loaded := LoadItemsFromFolder(folderData, path, mode);
    if loaded.Ok? then loaded.value else SampleData()
  }

  /** Distinct document positions get distinct tokens. */
  lemma DocumentTokensDistinct(folderName: string, i: nat, j: nat)
    requires i != j
    ensures DocumentToken(folderName, i) != DocumentToken(folderName, j)
  {
    var prefix := FolderToken(folderName) + "-";
    assert DocumentToken(folderName, i) == prefix + NatToString(i + 1);
    assert DocumentToken(folderName, j) == prefix + NatToString(j + 1);
    if DocumentToken(folderName, i) == DocumentToken(folderName, j) {
      assert NatToString(i + 1) == (prefix + NatToString(i + 1))[|prefix|..];
      assert NatToString(j + 1) == (prefix + NatToString(j + 1))[|prefix|..];
      NatToStringInjective(i + 1, j + 1);
    }
  }

  /** Records of the documents of one folder never share an identifier. */
  lemma DocumentIdsDistinct(mode: string, folderName: string, info: FolderInfo, i: int, j: int)
    requires PerDocumentMode(mode)
    requires 0 <= i < j < |ProjectFolder(mode, folderName, info)|
    ensures ProjectFolder(mode, folderName, info)[i].id != ProjectFolder(mode, folderName, info)[j].id
  {
    DocumentTokensDistinct(folderName, i, j);
  }
}
