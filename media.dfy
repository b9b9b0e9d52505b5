/** The media attached to a portfolio entry (a skill, an education entry, a
    project or an experience): how a fetched file is typed, which uploads are
    accepted, what the gallery shows under its filter, and how a deletion
    removes files. */
module Media {
  import opened Common

  datatype MediaKind = Image | Video

  /** A gallery file; `mediaId` is `None` when the backend sent none. */
  datatype MediaFile = MediaFile(mediaId: Option<int>, fileUrl: string, kind: MediaKind)

  /** The gallery filter of one entry: `"all"`, `"image"` or `"video"`. */
  datatype MediaFilter = All | Only(kind: MediaKind)

  /** A media record as the backend lists it. */
  datatype RawMedia = RawMedia(mediaId: Option<int>, link: string, fileType: string)

  /** `fileType.startsWith("image") ? "image" : "video"`. */
  function FetchedKind(fileType: string): (k: MediaKind)
    ensures k == Image <==> StartsWith(fileType, "image")
  {
    if StartsWith(fileType, "image") then Image else Video
  }

  /** The file type an upload is accepted under: `image/...` files are images,
      `video/...` files are videos, anything else is refused (`None`). */
  function UploadKind(mimeType: string): (k: Option<MediaKind>)
    ensures k == Some(Image) <==> StartsWith(mimeType, "image/")
    ensures k == Some(Video) <==> !StartsWith(mimeType, "image/") && StartsWith(mimeType, "video/")
    ensures k == None <==> !StartsWith(mimeType, "image/") && !StartsWith(mimeType, "video/")
  {
    if StartsWith(mimeType, "image/") then Some(Image)
    else if StartsWith(mimeType, "video/") then Some(Video)
    else None
  }

  /** An accepted upload sends its MIME type as `fileType`; when the backend
      lists it again, the gallery types it as it was accepted. */
  lemma UploadKindSurvivesFetch(mimeType: string)
    requires UploadKind(mimeType).Some?
    ensures FetchedKind(mimeType) == UploadKind(mimeType).value
  {
    if !StartsWith(mimeType, "image/") {
      assert StartsWith(mimeType, "video/");
      assert mimeType[0] == 'v';
    }
  }

  /** One listed record as a gallery file. */
  function Formatted(raw: RawMedia): (m: MediaFile)
    ensures m.mediaId == raw.mediaId && m.fileUrl == raw.link
    ensures m.kind == FetchedKind(raw.fileType)
  {
    MediaFile(raw.mediaId, raw.link, FetchedKind(raw.fileType))
  }

  /** `mediaData.result.map(...)`: every listed record, in order. */
  function FormattedAll(raws: seq<RawMedia>): (r: seq<MediaFile>)
    ensures |r| == |raws|
    ensures forall i :: 0 <= i < |raws| ==> r[i] == Formatted(raws[i])
  {
    if raws == [] then [] else [Formatted(raws[0])] + FormattedAll(raws[1..])
  }

  /** `filters[id] || "all"`: an entry whose filter was never chosen shows all. */
  function FilterFor(filters: map<int, MediaFilter>, id: int): MediaFilter {
    if id in filters then filters[id] else All
  }

  predicate OfKind(kind: MediaKind, m: MediaFile) {
    m.kind == kind
  }

  /** The gallery under a filter: everything for "all", otherwise the files of
      that type, in order. */
  function Visible(media: seq<MediaFile>, filter: MediaFilter): (r: seq<MediaFile>)
    ensures filter.All? ==> r == media
    ensures filter.Only? ==> forall m :: m in r <==> m in media && m.kind == filter.kind
    ensures |r| <= |media|
  {
    if filter.All? then media else Filter(media, m => OfKind(filter.kind, m))
  }

  /** Every file is shown under exactly one of the two type filters: the
      image and video galleries together are as long as the whole gallery. */
  lemma {:induction false} KindFiltersPartition(media: seq<MediaFile>)
    ensures |Visible(media, Only(Image))| + |Visible(media, Only(Video))| == |media|
  {
    if media != [] {
      KindFiltersPartition(media[1..]);
    }
  }

  predicate Kept(mediaId: int, m: MediaFile) {
    m.mediaId != Some(mediaId)
  }

  /** `mediaFiles.filter(media => media.mediaId !== mediaIdToDelete)`: a file
      without an id is never removed. */
  function RemoveMedia(media: seq<MediaFile>, mediaId: int): (r: seq<MediaFile>)
    ensures forall m :: m in r <==> m in media && m.mediaId != Some(mediaId)
    ensures |r| <= |media|
  {
    Filter(media, m => Kept(mediaId, m))
  }

  /** Removing the id of a file just appended, when no earlier file carried
      it, gives back the gallery as it was before the append. */
  lemma RemoveUndoesAppend(media: seq<MediaFile>, m: MediaFile, mediaId: int)
    requires m.mediaId == Some(mediaId)
    requires forall i :: 0 <= i < |media| ==> media[i].mediaId != Some(mediaId)
    ensures RemoveMedia(media + [m], mediaId) == media
  {
    var keep := (x: MediaFile) => Kept(mediaId, x);
    FilterAppend(media, [m], keep);
    FilterAll(media, keep);
  }

  /** Removing the same id twice removes nothing more. */
  lemma RemoveMediaIdempotent(media: seq<MediaFile>, mediaId: int)
    ensures RemoveMedia(RemoveMedia(media, mediaId), mediaId) == RemoveMedia(media, mediaId)
  {
    var r := RemoveMedia(media, mediaId);
    assert forall i :: 0 <= i < |r| ==> r[i] in r;
    FilterAll(r, (x: MediaFile) => Kept(mediaId, x));
  }
}
