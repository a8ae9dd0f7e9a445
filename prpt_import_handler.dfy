/**
 * The import of a report bundle (`.prpt`): the title and description found
 * in the report's document metadata become a locale entry, the "visible"
 * metadata attribute decides the hidden flag when the bundle does not carry
 * one, and every failure on the way surfaces as a `PlatformImportException`.
 *
 * The report engine's parser, the generic repository import (`super.importFile`)
 * and the processing of the collected locale files are collaborators: they
 * come in as a parse result and as functions from what they are given to
 * their outcome.
 */
module PrptImportHandler {
  import opened Common
  import opened JavaText
  import opened FileNames

  /** `ODFMetaAttributeNames.DublinCore.NAMESPACE` and its two attribute names. */
  const DUBLIN_CORE_NAMESPACE := "http://purl.org/dc/elements/1.1/"
  const TITLE := "title"
  const DESCRIPTION := "description"

  /** `ClassicEngineBoot.METADATA_NAMESPACE` and the attribute read from it. */
  const METADATA_NAMESPACE := "http://reporting.pentaho.org/namespaces/engine/classic/metadata/1.0"
  const VISIBLE := "visible"

  /** The message `extractMetaData` gives a report that does not parse. */
  const PARSE_FAILURE_MESSAGE := "An unexpected error occurred while parsing a report definition"

  /** A bundle attribute: a string or some other object. */
  datatype AttributeValue = StringValue(text: string) | OtherValue

  /** The report's document metadata, as a map from (namespace, name) to the attribute stored there. */
  datatype DocumentMetaData = DocumentMetaData(attributes: map<(string, string), AttributeValue>)
  {
    /** `getBundleAttribute`: the attribute, or null. */
    function BundleAttribute(namespace: string, name: string): Option<AttributeValue>
    {
      if (namespace, name) in attributes then Some(attributes[(namespace, name)]) else None
    }
  }

  /** What went wrong inside `importFile`, before it is wrapped. */
  datatype ImportCause =
    | ReportParseFailure(message: string)      // the `PlatformImportException` thrown by `extractMetaData`
    | ClassCast                                 // a title or description that is not a string
    | SuperImportFailure(message: string)       // `super.importFile`
    | LocaleProcessingFailure(message: string)  // `processLocaleFiles`

  /** The exception `importFile` throws: every failure, wrapped once more. */
  datatype PlatformImportException = PlatformImportException(cause: ImportCause)

  // ---------------------------------------------------------------------------
  // Path, text and flag decisions

  /** The directory the locale entry is filed under: "" for the root, written either way. */
  function NormalizeFilePath(path: string): (r: string)
    ensures r == "" <==> path == "" || path == "/" || path == "\\"
    ensures r != "" ==> r == path
  {
    if path == "/" || path == "\\" then "" else path
  }

  /** Normalising twice is normalising once. */
  lemma NormalizeFilePathIdempotent(path: string)
    ensures NormalizeFilePath(NormalizeFilePath(path)) == NormalizeFilePath(path)
  {
  }

  /** `StringUtils.isEmpty(s, true)` of the reporting libraries: null, or nothing left once trimmed. */
  predicate IsBlank(s: Option<string>)
  {
    s.None? || IsWhitespaceOnly(s.value)
  }

  /** A blank title or description is treated as null. */
  function BlankToNull(s: Option<string>): (r: Option<string>)
    ensures r.None? <==> IsBlank(s)
    ensures r.Some? ==> r == s && exists i :: 0 <= i < |r.value| && !IsTrimmed(r.value[i])
  {
    if IsBlank(s) then None else s
  }

  /** What is kept is kept again: dropping blanks twice is dropping them once. */
  lemma BlankToNullIdempotent(s: Option<string>)
    ensures BlankToNull(BlankToNull(s)) == BlankToNull(s)
  {
  }

  /** The `(String)` cast of a bundle attribute: null stays null, any other object fails. */
  function ReadString(metaData: DocumentMetaData, namespace: string, name: string): (r: Result<Option<string>, ImportCause>)
    ensures r.Err? <==> metaData.BundleAttribute(namespace, name) == Some(OtherValue)
    ensures r.Ok? && r.value.Some? <==> metaData.BundleAttribute(namespace, name).Some? && metaData.BundleAttribute(namespace, name).value.StringValue?
    ensures r.Ok? && r.value.Some? ==> metaData.BundleAttribute(namespace, name) == Some(StringValue(r.value.value))
  {
    match metaData.BundleAttribute(namespace, name)
    case None => Ok(None)
    case Some(StringValue(text)) => Ok(Some(text))
    case Some(OtherValue) => Err(ClassCast)
  }

  /** `isReportHidden`: only the string "false", spelled exactly so, hides a report. */
  function IsReportHidden(metaData: DocumentMetaData): (hidden: bool)
    ensures hidden <==> (METADATA_NAMESPACE, VISIBLE) in metaData.attributes
                        && metaData.attributes[(METADATA_NAMESPACE, VISIBLE)] == StringValue("false")
  {
    metaData.BundleAttribute(METADATA_NAMESPACE, VISIBLE) == Some(StringValue("false"))
  }

  /** A string "visible" attribute hides the report exactly when it is "false", whatever else the metadata holds. */
  lemma OnlyExactFalseHides(metaData: DocumentMetaData, visible: string)
    requires metaData.BundleAttribute(METADATA_NAMESPACE, VISIBLE) == Some(StringValue(visible))
    ensures IsReportHidden(metaData) <==> visible == "false"
  {
  }

  /** A missing or non-string "visible" attribute leaves the report shown. */
  lemma NoStringVisibleShows(metaData: DocumentMetaData)
    requires metaData.BundleAttribute(METADATA_NAMESPACE, VISIBLE) in {None, Some(OtherValue)}
    ensures !IsReportHidden(metaData)
  {
  }

  /** The comparison is case-sensitive: "FALSE" equals "false" ignoring case, yet leaves the report shown. */
  lemma UpperCaseFalseShows(metaData: DocumentMetaData)
    requires metaData.BundleAttribute(METADATA_NAMESPACE, VISIBLE) == Some(StringValue("FALSE"))
    ensures EqualsIgnoreCase("FALSE", "false")
    ensures !IsReportHidden(metaData)
  {
    assert forall i :: 0 <= i < 5 ==> ToLowerAscii("FALSE"[i]) == "false"[i];
  }

  /** The decision reads the "visible" attribute and nothing else of the metadata. */
  lemma HiddenReadsOnlyVisible(m1: DocumentMetaData, m2: DocumentMetaData)
    requires m1.BundleAttribute(METADATA_NAMESPACE, VISIBLE) == m2.BundleAttribute(METADATA_NAMESPACE, VISIBLE)
    ensures IsReportHidden(m1) == IsReportHidden(m2)
  {
  }

  // ---------------------------------------------------------------------------
  // Locale entries

  /** One `createLocaleEntry` call: where the entry is filed and the texts it carries. */
  datatype LocaleEntry = LocaleEntry(filePath: string, fileName: string, title: Option<string>,
                                     description: Option<string>, file: Option<RepositoryFile>)

  /** The locale files collected during one import, in the order they were created. */
  class LocaleFilesProcessor {
    var entries: seq<LocaleEntry>

    constructor()
      ensures entries == []
    {
      entries := [];
    }

    /** `createLocaleEntry`: records one more entry (its empty property stream is not modelled). */
    method CreateLocaleEntry(filePath: string, fileName: string, title: Option<string>, description: Option<string>,
                             file: Option<RepositoryFile>)
      modifies this
      ensures entries == old(entries) + [LocaleEntry(filePath, fileName, title, description, file)]
    {
      entries := entries + [LocaleEntry(filePath, fileName, title, description, file)];
    }
  }

  /**
   * What `fillLocaleEntry` decides: the entry it creates, none, or the
   * failure of a cast. The description is read before the title.
   */
  function LocaleEntryFor(metaData: DocumentMetaData, filePath: string, fileName: string, file: Option<RepositoryFile>)
    : Result<Option<LocaleEntry>, ImportCause>
  {
    var description := ReadString(metaData, DUBLIN_CORE_NAMESPACE, DESCRIPTION);
    if description.Err? then Err(description.error)
    else
      var title := ReadString(metaData, DUBLIN_CORE_NAMESPACE, TITLE);
      if title.Err? then Err(title.error)
      else
        var t := BlankToNull(title.value);
        var d := BlankToNull(description.value);
        Ok(if t.Some? || d.Some? then Some(LocaleEntry(filePath, fileName, t, d, file)) else None)
  }

  /**
   * A locale entry is created exactly when both texts are readable and one
   * of them is not blank, and it carries them with blanks as null.
   */
  lemma LocaleEntryCreatedIff(metaData: DocumentMetaData, filePath: string, fileName: string, file: Option<RepositoryFile>)
    ensures var r := LocaleEntryFor(metaData, filePath, fileName, file);
      var title := ReadString(metaData, DUBLIN_CORE_NAMESPACE, TITLE);
      var description := ReadString(metaData, DUBLIN_CORE_NAMESPACE, DESCRIPTION);
      && (r.Err? <==> title.Err? || description.Err?)
      && (r.Ok? && r.value.Some? <==> title.Ok? && description.Ok? && (!IsBlank(title.value) || !IsBlank(description.value)))
      && (r.Ok? && r.value.Some? ==>
            r.value.value == LocaleEntry(filePath, fileName, BlankToNull(title.value), BlankToNull(description.value), file))
  {
  }

  /** `fillLocaleEntry`: reads both texts, drops blanks, and creates an entry when one is left. */
  method FillLocaleEntry(processor: LocaleFilesProcessor, metaData: DocumentMetaData, filePath: string,
                         fileName: string, file: Option<RepositoryFile>)
    returns (o: Outcome<ImportCause>)
    modifies processor
    ensures var e := LocaleEntryFor(metaData, filePath, fileName, file);
      && (o == if e.Err? then Fail(e.error) else Pass)
      && processor.entries == old(processor.entries) + (if e.Ok? && e.value.Some? then [e.value.value] else [])
  {
    var description := ReadString(metaData, DUBLIN_CORE_NAMESPACE, DESCRIPTION);
    if description.Err? {
      return Fail(description.error);
    }
    var d := description.value;
    if IsBlank(d) {
      d := None;
    }
    var title := ReadString(metaData, DUBLIN_CORE_NAMESPACE, TITLE);
    if title.Err? {
      return Fail(title.error);
    }
    var t := title.value;
    if IsBlank(t) {
      t := None;
    }
    if t.Some? || d.Some? {
      processor.CreateLocaleEntry(filePath, fileName, t, d, file);
    }
    o := Pass;
  }

  // ---------------------------------------------------------------------------
  // The bundle and the import

  /** The state of a bundle that the import reads or changes. */
  datatype BundleFields = BundleFields(name: string, path: string, hidden: Option<bool>, file: Option<RepositoryFile>)

  /** `RepositoryFileImportBundle`, reduced to what a report import touches. */
  class RepositoryFileImportBundle {
    var name: string
    var path: string
    var hidden: Option<bool>
    var file: Option<RepositoryFile>

    function Fields(): BundleFields
      reads this
    {
      BundleFields(name, path, hidden, file)
    }

    constructor(name: string, path: string, hidden: Option<bool>, file: Option<RepositoryFile>)
      ensures Fields() == BundleFields(name, path, hidden, file)
    {
      this.name, this.path, this.hidden, this.file := name, path, hidden, file;
    }

    method SetHidden(hidden: bool)
      modifies this`hidden
      ensures Fields() == old(Fields()).(hidden := Some(hidden))
    {
      this.hidden := Some(hidden);
    }
  }

  /** What one import does: its outcome, the bundle afterwards and the locale entries collected. */
  datatype ImportEffect = ImportEffect(outcome: Outcome<PlatformImportException>, bundle: BundleFields,
                                       localeEntries: seq<LocaleEntry>)

  /**
   * `importFile` over values: `parsed` is the report's metadata or None when
   * it does not parse, `superImport` the generic import of the bundle as it
   * then is, and `processLocaleFiles` the processing of the entries.
   */
  function ImportEffectOf(before: BundleFields, parsed: Option<DocumentMetaData>,
                          superImport: BundleFields -> Outcome<string>,
                          processLocaleFiles: seq<LocaleEntry> -> Outcome<string>): ImportEffect
  {
    if parsed.None? then ImportEffect(Fail(PlatformImportException(ReportParseFailure(PARSE_FAILURE_MESSAGE))), before, [])
    else
      var metaData := parsed.value;
      var entry := LocaleEntryFor(metaData, NormalizeFilePath(before.path), before.name, before.file);
      if entry.Err? then ImportEffect(Fail(PlatformImportException(entry.error)), before, [])
      else
        var entries := if entry.value.Some? then [entry.value.value] else [];
        var after := if before.hidden.None? then before.(hidden := Some(IsReportHidden(metaData))) else before;
        var imported := superImport(after);
        if imported.Fail? then ImportEffect(Fail(PlatformImportException(SuperImportFailure(imported.error))), after, entries)
        else
          var processed := processLocaleFiles(entries);
          if processed.Fail? then ImportEffect(Fail(PlatformImportException(LocaleProcessingFailure(processed.error))), after, entries)
          else ImportEffect(Pass, after, entries)
  }

  /** `importFile`: the bundle is updated in place, the locale entries go to a processor of its own. */
  method ImportFile(bundle: RepositoryFileImportBundle, parsed: Option<DocumentMetaData>,
                    superImport: BundleFields -> Outcome<string>,
                    processLocaleFiles: seq<LocaleEntry> -> Outcome<string>)
    returns (o: Outcome<PlatformImportException>, localeEntries: seq<LocaleEntry>)
    modifies bundle
    ensures var e := ImportEffectOf(old(bundle.Fields()), parsed, superImport, processLocaleFiles);
      o == e.outcome && bundle.Fields() == e.bundle && localeEntries == e.localeEntries
  {
    ghost var before := bundle.Fields();
    var localeFilesProcessor := new LocaleFilesProcessor();
    var fileName := bundle.name;
    var filePath := if bundle.path == "/" || bundle.path == "\\" then "" else bundle.path;
    if parsed.None? {
      return Fail(PlatformImportException(ReportParseFailure(PARSE_FAILURE_MESSAGE))), [];
    }
    var documentMetaData := parsed.value;
    var filled := FillLocaleEntry(localeFilesProcessor, documentMetaData, filePath, fileName, bundle.file);
    if filled.Fail? {
      return Fail(PlatformImportException(filled.error)), [];
    }
    localeEntries := localeFilesProcessor.entries;
    ghost var entry := LocaleEntryFor(documentMetaData, NormalizeFilePath(before.path), before.name, before.file);
    assert localeEntries == if entry.value.Some? then [entry.value.value] else [];
    if bundle.hidden.None? {
      var hidden := IsReportHidden(documentMetaData);
      bundle.SetHidden(hidden);
    }
    assert bundle.Fields() == if before.hidden.None? then before.(hidden := Some(IsReportHidden(documentMetaData))) else before;
    var imported := superImport(bundle.Fields());
    if imported.Fail? {
      return Fail(PlatformImportException(SuperImportFailure(imported.error))), localeEntries;
    }
    var processed := processLocaleFiles(localeEntries);
    if processed.Fail? {
      return Fail(PlatformImportException(LocaleProcessingFailure(processed.error))), localeEntries;
    }
    o := Pass;
  }

  /** A bundle that carries a hidden flag keeps it, whatever happens during the import. */
  lemma HiddenFlagKept(before: BundleFields, parsed: Option<DocumentMetaData>,
                       superImport: BundleFields -> Outcome<string>,
                       processLocaleFiles: seq<LocaleEntry> -> Outcome<string>)
    requires before.hidden.Some?
    ensures ImportEffectOf(before, parsed, superImport, processLocaleFiles).bundle == before
  {
  }

  /**
   * A bundle without a hidden flag gets the report's own once the metadata is
   * read, before the generic import sees it; name, path and file never change.
   */
  lemma HiddenFlagDefaulted(before: BundleFields, metaData: DocumentMetaData,
                            superImport: BundleFields -> Outcome<string>,
                            processLocaleFiles: seq<LocaleEntry> -> Outcome<string>)
    requires before.hidden.None?
    requires LocaleEntryFor(metaData, NormalizeFilePath(before.path), before.name, before.file).Ok?
    ensures var e := ImportEffectOf(before, Some(metaData), superImport, processLocaleFiles);
      e.bundle == before.(hidden := Some(IsReportHidden(metaData)))
  {
  }

  /**
   * The import succeeds exactly when the report parses, its texts are
   * strings, the generic import succeeds and the locale files are processed;
   * the exception thrown otherwise carries the first failure as its cause.
   */
  lemma ImportFailsOnlyThrough(before: BundleFields, parsed: Option<DocumentMetaData>,
                               superImport: BundleFields -> Outcome<string>,
                               processLocaleFiles: seq<LocaleEntry> -> Outcome<string>)
    ensures var e := ImportEffectOf(before, parsed, superImport, processLocaleFiles);
      && (parsed.None? ==> e.outcome == Fail(PlatformImportException(ReportParseFailure(PARSE_FAILURE_MESSAGE))))
      && (parsed.Some? && LocaleEntryFor(parsed.value, NormalizeFilePath(before.path), before.name, before.file).Err? ==>
            e.outcome == Fail(PlatformImportException(ClassCast)))
      && (e.outcome.Pass? <==>
            && parsed.Some?
            && LocaleEntryFor(parsed.value, NormalizeFilePath(before.path), before.name, before.file).Ok?
            && superImport(e.bundle).Pass?
            && processLocaleFiles(e.localeEntries).Pass?)
  {
    if parsed.Some? {
      var entry := LocaleEntryFor(parsed.value, NormalizeFilePath(before.path), before.name, before.file);
      if entry.Err? {
        assert entry.error == ClassCast;
      }
    }
  }

  /** The locale entry of an import is filed under the normalised path and the bundle's name. */
  lemma LocaleEntryFiledUnderBundle(before: BundleFields, metaData: DocumentMetaData,
                                    superImport: BundleFields -> Outcome<string>,
                                    processLocaleFiles: seq<LocaleEntry> -> Outcome<string>)
    ensures var e := ImportEffectOf(before, Some(metaData), superImport, processLocaleFiles);
      && |e.localeEntries| <= 1
      && forall entry :: entry in e.localeEntries ==>
           entry.filePath == NormalizeFilePath(before.path) && entry.fileName == before.name && entry.file == before.file
           && (entry.title.Some? || entry.description.Some?)
  {
  }
}
