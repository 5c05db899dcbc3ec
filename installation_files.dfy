/** The installation-files panel (scisInstallationIMGPDF): the files related
    to a record arrive as two id-to-title maps, one for PDFs and one for
    images, and each becomes a list of download links. */
module InstallationFiles {
  import opened Wrappers

  /** The path every download link starts with; the content version id follows. */
  const DOWNLOAD_PREFIX: string := "/sfc/servlet.shepherd/version/download/"

  datatype FileLink = FileLink(id: string, title: string, url: string)

  /** The download link of content version `id`. */
  function DownloadUrl(id: string): (url: string)
    ensures |url| == |DOWNLOAD_PREFIX| + |id|
    ensures url[..|DOWNLOAD_PREFIX|] == DOWNLOAD_PREFIX && url[|DOWNLOAD_PREFIX|..] == id
  {
    DOWNLOAD_PREFIX + id
  }

  /** The content version id a download link points at, `None` for any other text. */
  function UrlId(url: string): (id: Option<string>)
    ensures id.Some? <==> |url| >= |DOWNLOAD_PREFIX| && url[..|DOWNLOAD_PREFIX|] == DOWNLOAD_PREFIX
    ensures id.Some? ==> url == DOWNLOAD_PREFIX + id.value
  {
    if |url| >= |DOWNLOAD_PREFIX| && url[..|DOWNLOAD_PREFIX|] == DOWNLOAD_PREFIX
    then Some(url[|DOWNLOAD_PREFIX|..]) else None
  }

  /** A link leads back to the file it was built for. */
  lemma UrlIdRoundTrip(id: string)
    ensures UrlId(DownloadUrl(id)) == Some(id)
  {
  }

  /** Different files get different links. */
  lemma DownloadUrlInjective(a: string, b: string)
    requires DownloadUrl(a) == DownloadUrl(b)
    ensures a == b
  {
    UrlIdRoundTrip(a);
    UrlIdRoundTrip(b);
  }

  /** `Object.entries(map).map(([id, title]) => ...)`: one link per entry,
      in entry order. */
  function ToFileLinks(entries: seq<(string, string)>): (links: seq<FileLink>)
    ensures |links| == |entries|
    ensures forall k :: 0 <= k < |entries| ==>
              links[k].id == entries[k].0 && links[k].title == entries[k].1 && links[k].url == DownloadUrl(entries[k].0)
  {
    seq(|entries|, k requires 0 <= k < |entries| => FileLink(entries[k].0, entries[k].1, DownloadUrl(entries[k].0)))
  }

  /** Every link of a mapped list opens the file of its own entry. */
  lemma LinksOpenTheirFiles(entries: seq<(string, string)>)
    ensures forall k :: 0 <= k < |entries| ==> UrlId(ToFileLinks(entries)[k].url) == Some(entries[k].0)
  {
    forall k | 0 <= k < |entries|
      ensures UrlId(ToFileLinks(entries)[k].url) == Some(entries[k].0)
    {
      UrlIdRoundTrip(entries[k].0);
    }
  }

  /** `data.x ? mapped : []`: a missing map gives no links. */
  function LinksOrEmpty(entries: Option<seq<(string, string)>>): (links: seq<FileLink>)
    ensures entries.None? ==> links == []
    ensures entries.Some? ==> links == ToFileLinks(entries.value)
  {
    match entries
    case None => []
    case Some(e) => ToFileLinks(e)
  }

  /** The `data` object of the wire: both maps, either of them possibly missing. */
  datatype FilesData = FilesData(pdfs: Option<seq<(string, string)>>, images: Option<seq<(string, string)>>)

  /** What the wire delivers: data, an error, or (before the first answer) neither. */
  datatype FilesResult = Data(data: FilesData) | Error | Pending

  /** The two lists the panel shows. */
  datatype FileLists = FileLists(pdfs: seq<FileLink>, images: seq<FileLink>)

  /** `wiredFiles`: data replaces both lists, each built from its own map
      alone; an error or an empty answer keeps what is shown. */
  function WiredFiles(current: FileLists, result: FilesResult): (next: FileLists)
    ensures result.Data? ==> next.pdfs == LinksOrEmpty(result.data.pdfs) && next.images == LinksOrEmpty(result.data.images)
    ensures !result.Data? ==> next == current
  {
    match result
    case Data(d) => FileLists(LinksOrEmpty(d.pdfs), LinksOrEmpty(d.images))
    case _ => current
  }

  /** The panel starts with both lists empty. */
  const NoFiles: FileLists := FileLists([], [])

  /** The lists after an answer do not depend on what was shown before, and
      the images do not depend on the PDFs (nor the other way round). */
  lemma WiredFilesIndependent(c1: FileLists, c2: FileLists, d1: FilesData, d2: FilesData)
    ensures d1.pdfs == d2.pdfs ==> WiredFiles(c1, Data(d1)).pdfs == WiredFiles(c2, Data(d2)).pdfs
    ensures d1.images == d2.images ==> WiredFiles(c1, Data(d1)).images == WiredFiles(c2, Data(d2)).images
  {
  }

  /** A refresh that fails after a successful load keeps the loaded links. */
  lemma ErrorAfterDataKeepsLinks(d: FilesData)
    ensures WiredFiles(WiredFiles(NoFiles, Data(d)), Error) == FileLists(LinksOrEmpty(d.pdfs), LinksOrEmpty(d.images))
  {
  }

  /** One PDF and no image map: one link, an empty image list. */
  lemma OnePdfExample()
    ensures WiredFiles(NoFiles, Data(FilesData(Some([("068A", "Survey.pdf")]), None)))
            == FileLists([FileLink("068A", "Survey.pdf", "/sfc/servlet.shepherd/version/download/068A")], [])
  {
    var links := ToFileLinks([("068A", "Survey.pdf")]);
    assert DOWNLOAD_PREFIX + "068A" == "/sfc/servlet.shepherd/version/download/068A";
    assert links == [FileLink("068A", "Survey.pdf", DOWNLOAD_PREFIX + "068A")];
  }
}
