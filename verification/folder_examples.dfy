/**
 * Worked examples on the requests folder the block ships with (the
 * `folderData` literal of `loadItemsFromFolder`).
 */
module FolderExamples {
  import opened Outcomes
  import opened Text
  import opened Records
  import opened Projection

  const RequestsPath := ("/content/dam/" + "rs-thinkhub/" + "requests")

  function Doc(name: string, folder: string, kind: string, size: string, title: string): Document {
    Document(name, RequestsPath + "/" + folder + "/" + name, kind, size, Some(title))
  }

  function Fragment(name: string): FragmentRef {
    FragmentRef(name, ("/content/dam/" + "rs-thinkhub/" + "fragments/") + name)
  }

  function IndustrialAutomation(): (string, FolderInfo) {
    ("industrial-automation", FolderInfo(
       ("Industrial " + "Automation System " + "Design"), "in-progress",
       1705314600000, 1705761900000,   // 2024-01-15T10:30:00Z, 2024-01-20T14:45:00Z
       Some([ Doc("design-specification.pdf", "industrial-automation", "pdf", "2.5MB", ("PLC Design " + "Specification")),
              Doc("requirements.docx", "industrial-automation", "docx", "1.2MB", ("System " + "Requirements " + "Document")) ]),
       Some([Fragment("automation-requirements")])))
  }

  function PowerDistribution(): (string, FolderInfo) {
    ("power-distribution", FolderInfo(
       ("Power " + "Distribution " + "Components " + "Selection"), "completed",
       1704878100000, 1705594800000,   // 2024-01-10T09:15:00Z, 2024-01-18T16:20:00Z
       Some([ Doc("component-specs.pdf", "power-distribution", "pdf", "3.1MB", ("Power Component " + "Specifications")) ]),
       Some([Fragment("power-requirements")])))
  }

  function SafetySystems(): (string, FolderInfo) {
    ("safety-systems", FolderInfo(
       ("Safety System " + "Integration " + "Consultation"), "pending",
       1705921200000, 1705921200000,   // 2024-01-22T11:00:00Z
       Some([ Doc("safety-assessment.pdf", "safety-systems", "pdf", "1.8MB", ("Safety System " + "Assessment Report")) ]),
       Some([Fragment("safety-requirements")])))
  }

  function ControlPanels(): (string, FolderInfo) {
    ("control-panels", FolderInfo(
       ("Custom Control " + "Panel Design"), "in-progress",
       1706193000000, 1706260500000,   // 2024-01-25T14:30:00Z, 2024-01-26T09:15:00Z
       Some([ Doc("panel-layout.pdf", "control-panels", "pdf", "4.2MB", ("Control Panel " + "Layout Design")),
              Doc("wiring-diagram.pdf", "control-panels", "pdf", "2.8MB", ("Wiring Diagram " + "Specification")) ]),
       Some([Fragment("control-panel-specs")])))
  }

  /** The four request folders of the literal, in listing order. */
  function Children(): seq<(string, FolderInfo)> {
    [IndustrialAutomation(), PowerDistribution(), SafetySystems(), ControlPanels()]
  }

  /** The folder data: one known path. */
  function FolderData(): map<string, Listing> {
    map[RequestsPath := Listing("My Requests", Children())]
  }

  lemma ThirdFolder()
    ensures |Children()| == 4
    ensures Children()[2].0 == "safety-systems"
    ensures Children()[2].1.title == "Safety System Integration Consultation"
    ensures Children()[2].1.status == "pending"
  {
  }

  lemma UpperSafetySystems()
    ensures ToUpper("safety-systems") == "SAFETY-SYSTEMS"
  {
  }

  /** The known path loads the projection of its four folders. */
  lemma KnownPathProjects(mode: string)
    ensures LoadItems(FolderData(), RequestsPath, mode) == ProjectChildren(mode, Children())
  {
    assert RequestsPath in FolderData();
  }

  /** In `folderAsName` mode the shipped folder gives four records; the third is request RH-SAFETY-SYSTEMS. */
  lemma SafetySystemsRecord()
    ensures var r := LoadItems(FolderData(), RequestsPath, FolderAsName);
      |r| == 4 && r[2].id == "RH-SAFETY-SYSTEMS"
  {
    var ch := Children();
    ThirdFolder();
    UpperSafetySystems();
    KnownPathProjects(FolderAsName);
    assert ProjectChildren(FolderAsName, ch)[2].id == "RH-" + ToUpper(ch[2].0);
  }

  /** That record carries the folder's title and its pending status. */
  lemma SafetySystemsTitleAndStatus()
    ensures var r := LoadItems(FolderData(), RequestsPath, FolderAsName);
      |r| == 4 && r[2].title == "Safety System Integration Consultation" && r[2].status == "pending"
  {
    ThirdFolder();
    KnownPathProjects(FolderAsName);
  }

  /** A path the folder data does not know yields the two sample records. */
  lemma UnknownPathFallsBack(mode: string)
    ensures LoadItems(FolderData(), "/content/dam/elsewhere", mode) == SampleData()
    ensures |LoadItems(FolderData(), "/content/dam/elsewhere", mode)| == 2
  {
    assert "/content/dam/elsewhere" != RequestsPath;
  }

  lemma FirstFolderDocuments()
    ensures |OrEmpty(Children()[0].1.documents)| == 2
    ensures OrEmpty(Children()[0].1.documents)[0].name == "design-specification.pdf"
    ensures OrEmpty(Children()[0].1.documents)[1].name == "requirements.docx"
    ensures DocumentCount(Children()) == 6
  {
    var ch := Children();
    assert DocumentCount(ch[3..]) == 2;
    assert DocumentCount(ch[2..]) == 3;
    assert DocumentCount(ch[1..]) == 4;
  }

  lemma StripSampleNames()
    ensures StripExtension("design-specification.pdf") == "design-specification"
    ensures StripExtension("requirements.docx") == "requirements"
  {
    assert ExtensionAt("design-specification.pdf", 20);
    assert ExtensionAt("requirements.docx", 12);
  }

  /** In `fileName` mode the documents are titled by their names without extension. */
  lemma FileNameTitles()
    ensures |LoadItems(FolderData(), RequestsPath, FileName)| == 6
    ensures LoadItems(FolderData(), RequestsPath, FileName)[0].title == "design-specification"
    ensures LoadItems(FolderData(), RequestsPath, FileName)[1].title == "requirements"
  {
    var ch := Children();
    FirstFolderDocuments();
    StripSampleNames();
    KnownPathProjects(FileName);
    var head := ProjectFolder(FileName, ch[0].0, ch[0].1);
    assert ProjectChildren(FileName, ch) == head + ProjectChildren(FileName, ch[1..]);
  }
}
