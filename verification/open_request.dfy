/**
 * `how_to_open`: turning a torrent's save path and file list into an open
 * request, a folder and, for a single-file torrent, the file to select in it.
 */
module OpenRequest {
  import opened Wrappers
  import opened PosixPath

  /** One entry of a torrent's `files` status field; only its `path` is read. */
  datatype TorrentFile = TorrentFile(path: string)

  /** An open request: the folder to show and the file to select in it, if any. */
  datatype Request = Request(folder: string, file: Option<string>)

  /**
   * A single-file torrent opens its save path with that file selected; a
   * multi-file torrent opens the save path joined with the directory of its
   * FIRST file, and selects nothing.
   */
  function HowToOpen(savePath: string, files: seq<TorrentFile>): (r: Request)
    requires |files| > 0
    ensures |files| == 1 ==> r.folder == savePath && r.file == Some(files[0].path)
    ensures |files| > 1 ==> r.file == None
  {
    var firstPath := files[0].path;
    if |files| == 1 then Request(savePath, Some(firstPath))
    else Request(Join(savePath, Dirname(firstPath)), None)
  }

  /** Only the first file and whether there are others decide the request. */
  lemma HowToOpenReadsFirstFileOnly(savePath: string, files: seq<TorrentFile>, others: seq<TorrentFile>)
    requires |files| > 0 && |others| > 0
    requires files[0] == others[0] && (|files| == 1 <==> |others| == 1)
    ensures HowToOpen(savePath, files) == HowToOpen(savePath, others)
  {
  }

  /**
   * For a multi-file torrent whose first file has a relative path without
   * doubled separators, the requested folder is the directory that holds the
   * first file: joining it with the file's base name gives the file's full path.
   */
  lemma MultiFileFolderHoldsFirstFile(savePath: string, files: seq<TorrentFile>)
    requires |files| > 1
    requires !IsAbsolute(files[0].path) && NoDoubleSeparator(files[0].path)
    ensures HowToOpen(savePath, files).file == None
    ensures Join(HowToOpen(savePath, files).folder, Basename(files[0].path)) == Join(savePath, files[0].path)
  {
    var p := files[0].path;
    assert HowToOpen(savePath, files) == Request(Join(savePath, Dirname(p)), None);
    JoinThroughDirname(savePath, p);
  }
}
