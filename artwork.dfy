/**
 * The artwork reference helpers: the album's first image URL, the cache file
 * name derived from a URL (filepath.Base and filepath.Join), and the decisions
 * of downloadAlbumArt against an abstract file system and abstract network
 * outcomes.
 */
module Artwork {

  datatype Image = Image(url: string)
  datatype Album = Album(name: string, images: seq<Image>)

  /** getAlbumArtURL: the first image's URL, or "" for an album without images. */
  function AlbumArtURL(album: Album): (url: string)
    ensures album.images == [] ==> url == ""
    ensures album.images != [] ==> url == album.images[0].url
  {
    if |album.images| > 0 then album.images[0].url else ""
  }

  /** The path with every trailing '/' removed. */
  function TrimTrailingSlashes(p: string): (t: string)
    ensures |t| <= |p| && t == p[..|t|]
    ensures t == [] || t[|t| - 1] != '/'
    ensures forall i :: |t| <= i < |p| ==> p[i] == '/'
    decreases |p|
  {
    if p != [] && p[|p| - 1] == '/' then TrimTrailingSlashes(p[..|p| - 1]) else p
  }

  /** The part of p after its last '/' (all of p if it has none). */
  function AfterLastSlash(p: string): (t: string)
    ensures '/' !in t
    ensures |t| <= |p| && t == p[|p| - |t|..]
    ensures |t| < |p| ==> p[|p| - |t| - 1] == '/'
    decreases |p|
  {
    if p == [] || p[|p| - 1] == '/' then [] else AfterLastSlash(p[..|p| - 1]) + [p[|p| - 1]]
  }

  /**
   * filepath.Base with '/' as separator: "." for the empty path, "/" for a
   * path of slashes only, and otherwise the last element once trailing
   * slashes are dropped.
   */
  function Base(path: string): (b: string)
    ensures b != ""
    ensures b == "/" || '/' !in b
  {
    if path == "" then "."
    else
      var t := TrimTrailingSlashes(path);
      if t == "" then "/" else AfterLastSlash(t)
  }

  lemma {:induction false} AfterLastSlashOfAppend(prefix: string, name: string)
    requires '/' !in name
    ensures AfterLastSlash(prefix + ['/'] + name) == name
    decreases |name|
  {
    var p := prefix + ['/'] + name;
    if name != [] {
      var n := |name|;
      assert p[..|p| - 1] == prefix + ['/'] + name[..n - 1];
      assert name[n - 1] in name;
      AfterLastSlashOfAppend(prefix, name[..n - 1]);
      assert name[..n - 1] + [name[n - 1]] == name;
    }
  }

  /** The base of "<anything>/<name>" is name when name is a non-empty segment. */
  lemma BaseOfUrl(prefix: string, name: string)
    requires name != [] && '/' !in name
    ensures Base(prefix + ['/'] + name) == name
  {
    var p := prefix + ['/'] + name;
    assert p[|p| - 1] == name[|name| - 1] && name[|name| - 1] in name;
    assert TrimTrailingSlashes(p) == p;
    AfterLastSlashOfAppend(prefix, name);
  }

  /**
   * filepath.Join of a directory and one element, without the lexical
   * clean-up filepath.Clean applies to the joined path.
   */
  function JoinPath(dir: string, name: string): string {
    if dir == "" then name else if name == "" then dir else dir + ['/'] + name
  }

  /**
   * The cache file for an artwork URL: the URL's base inside the cache
   * directory with ".jpeg" appended. The key is the URL's last segment only.
   */
  function CacheFileName(dir: string, url: string): (f: string)
    ensures |f| > 5 && f[|f| - 5..] == ".jpeg"
    ensures dir != "" ==> |f| > |dir| && f[..|dir| + 1] == dir + ['/']
  {
    JoinPath(dir, Base(url)) + ".jpeg"
  }

  /** The artwork at "https://host/image/<id>" is cached as "<dir>/<id>.jpeg". */
  lemma CacheFileNameOfUrl(dir: string, prefix: string, id: string)
    requires dir != "" && id != [] && '/' !in id
    ensures CacheFileName(dir, prefix + ['/'] + id) == dir + ['/'] + id + ".jpeg"
  {
    BaseOfUrl(prefix, id);
  }

  /** The answer of the HEAD probe: a transport error, or a response's Content-Type. */
  datatype HeadResult = HeadFailed | HeadOk(contentType: string)

  /**
   * The outcomes of the I/O downloadAlbumArt may perform, in order: the HEAD
   * probe, the GET, creating the cache file (after the best-effort creation of
   * the cache directory) and copying the body into it.
   */
  datatype ArtworkIo = ArtworkIo(head: HeadResult, getOk: bool, createOk: bool, copyOk: bool)

  /**
   * What one call of downloadAlbumArt returns and does: the returned file
   * name, whether it returns an error, whether it issued the HEAD and the GET
   * requests, and the files of the cache afterwards.
   */
  datatype Download = Download(filename: string, failed: bool, headIssued: bool, getIssued: bool, files: set<string>)

  const JpegContentType := "image/jpeg"

  /**
   * downloadAlbumArt: an empty URL returns at once; a failed HEAD returns an
   * error; a Content-Type other than exactly "image/jpeg" returns an empty
   * name without error; an existing cache file is returned without a GET;
   * otherwise the file is fetched and written. The name is already set when
   * the GET, the file creation or the copy fails, and a file that was created
   * stays in the cache even when the copy into it fails.
   */
  function DownloadAlbumArt(url: string, dir: string, io: ArtworkIo, files: set<string>): (d: Download)
    ensures d.filename == "" || d.filename == CacheFileName(dir, url)
    ensures d.headIssued <==> url != ""
    ensures d.getIssued ==> io.head == HeadOk(JpegContentType) && CacheFileName(dir, url) !in files
    ensures d.files == files || d.files == files + {CacheFileName(dir, url)}
    ensures d.files != files ==> d.getIssued && io.getOk && io.createOk
  {
    if url == "" then Download("", false, false, false, files)
    else match io.head
      case HeadFailed => Download("", true, true, false, files)
      case HeadOk(contentType) =>
        if contentType != JpegContentType then Download("", false, true, false, files)
        else
          var name := CacheFileName(dir, url);
          if name in files then Download(name, false, true, false, files)
          else if !io.getOk || !io.createOk then Download(name, true, true, true, files)
          else Download(name, !io.copyOk, true, true, files + {name})
  }

  /** An empty URL issues no request and returns "" without error. */
  lemma DownloadEmptyUrl(dir: string, io: ArtworkIo, files: set<string>)
    ensures DownloadAlbumArt("", dir, io, files) == Download("", false, false, false, files)
  {
  }

  /** A failed HEAD probe returns "" with an error and issues no GET. */
  lemma DownloadHeadFailed(url: string, dir: string, io: ArtworkIo, files: set<string>)
    requires url != "" && io.head == HeadFailed
    ensures DownloadAlbumArt(url, dir, io, files) == Download("", true, true, false, files)
  {
  }

  /** A response that is not exactly image/jpeg yields no file name, no error and no GET. */
  lemma DownloadRejectsNonJpeg(url: string, dir: string, io: ArtworkIo, files: set<string>)
    requires url != "" && io.head.HeadOk? && io.head.contentType != JpegContentType
    ensures var d := DownloadAlbumArt(url, dir, io, files);
      d.filename == "" && !d.failed && !d.getIssued && d.files == files
  {
  }

  /** A cache hit returns the cache file name without a GET and leaves the cache as it was. */
  lemma DownloadCacheHit(url: string, dir: string, io: ArtworkIo, files: set<string>)
    requires url != "" && io.head == HeadOk(JpegContentType) && CacheFileName(dir, url) in files
    ensures DownloadAlbumArt(url, dir, io, files) == Download(CacheFileName(dir, url), false, true, false, files)
  {
  }

  /**
   * On a cache miss whose GET, file creation and copy all succeed, the cache
   * file name comes back without error and the cache gains exactly that file.
   */
  lemma DownloadFetchesAndStores(url: string, dir: string, io: ArtworkIo, files: set<string>)
    requires url != "" && io.head == HeadOk(JpegContentType) && CacheFileName(dir, url) !in files
    requires io.getOk && io.createOk && io.copyOk
    ensures DownloadAlbumArt(url, dir, io, files)
      == Download(CacheFileName(dir, url), false, true, true, files + {CacheFileName(dir, url)})
  {
  }

  /**
   * Once a GET has created the cache file, resolving the same URL again never
   * issues another GET, whatever the network answers; when the probe again
   * reports a JPEG it returns the same file without error.
   */
  lemma ResolveTwiceFetchesOnce(url: string, dir: string, io1: ArtworkIo, io2: ArtworkIo, files: set<string>)
    requires DownloadAlbumArt(url, dir, io1, files).getIssued && io1.getOk && io1.createOk
    ensures var d1 := DownloadAlbumArt(url, dir, io1, files);
      var d2 := DownloadAlbumArt(url, dir, io2, d1.files);
      && !d2.getIssued
      && d2.files == d1.files
      && (io2.head == HeadOk(JpegContentType) ==> d2.filename == d1.filename && !d2.failed)
  {
  }

  /**
   * A copy that fails after the file was created reports an error, but the
   * truncated file is a cache hit from then on.
   */
  lemma FailedCopyIsCached(url: string, dir: string, io1: ArtworkIo, io2: ArtworkIo, files: set<string>)
    requires url != "" && io1.head == HeadOk(JpegContentType) && CacheFileName(dir, url) !in files
    requires io1.getOk && io1.createOk && !io1.copyOk
    requires io2.head == HeadOk(JpegContentType)
    ensures var d1 := DownloadAlbumArt(url, dir, io1, files);
      var d2 := DownloadAlbumArt(url, dir, io2, d1.files);
      d1.failed && d2 == Download(d1.filename, false, true, false, d1.files)
  {
  }

  /**
   * When the GET or the file creation fails the function still returns the
   * cache file name, with an error.
   */
  lemma FailedGetReturnsName(url: string, dir: string, io: ArtworkIo, files: set<string>)
    requires url != "" && io.head == HeadOk(JpegContentType) && CacheFileName(dir, url) !in files
    requires !io.getOk || !io.createOk
    ensures var d := DownloadAlbumArt(url, dir, io, files);
      d.failed && d.filename == CacheFileName(dir, url) && CacheFileName(dir, url) !in d.files
  {
  }
}
