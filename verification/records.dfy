/**
 * The records of the My Requests listing and the folder listing they are
 * projected from. Timestamps are milliseconds since the epoch (what
 * `new Date(iso).getTime()` yields for the ISO strings of the folder literal
 * and the sample records).
 */
module Records {
  import opened Outcomes

  /** A document stored in a request folder. */
  datatype Document = Document(
    name: string,
    path: string,
    kind: string,                   // the document's `type`, e.g. "pdf"
    size: string,
    metadataTitle: Option<string>)

  /** A structured-content reference linked from a request folder. */
  datatype FragmentRef = FragmentRef(name: string, path: string)

  /** One sub-folder of the requests folder: one submitted request. */
  datatype FolderInfo = FolderInfo(
    title: string,
    status: string,
    dateCreated: int,
    dateModified: int,
    documents: Option<seq<Document>>,
    contentFragments: Option<seq<FragmentRef>>)

  /** A requests folder: its title and its sub-folders in `Object.entries` order. */
  datatype Listing = Listing(title: string, children: seq<(string, FolderInfo)>)

  /** One entry of the My Requests list. */
  datatype Request = Request(
    id: string,
    title: string,
    description: string,
    kind: string,                   // the record's `type`
    status: string,
    dateCreated: int,
    dateModified: int,
    documentType: string,
    referenceNumber: string,
    aemPath: string,
    contentFragment: string,
    folderName: Option<string>,
    fileName: Option<string>,
    documents: Option<seq<Document>>,
    contentFragments: Option<seq<FragmentRef>>)
}
