/** The list operations every portfolio section (skills, education,
    projects, experiences) performs on its entries: loading with the media of
    each entry, appending a created entry, updating, deleting, and adding or
    removing one entry's media. `D` is the section's own record. */
module Entries {
  import opened Common
  import opened Media

  /** An entry: its id (`skillId`, `eduId`, `projectId`, `expId`), its own
      fields and its gallery. */
  datatype Entry<D> = Entry(id: int, data: D, mediaFiles: seq<MediaFile>)

  // -----------------------------------------------------------------------
  // What the sections send and receive

  /** The inline edit in progress: the entry, the field and the typed text. */
  datatype Editing = Editing(id: int, field: string, value: string)

  /** The file picked in the media dialog. */
  datatype FileChoice = FileChoice(name: string, mimeType: string)

  /** The multipart form of a media upload (the file itself is left out). */
  datatype Upload = Upload(entityType: string, entityId: int, fileType: string, fileName: string)

  /** A request a section sends through `authFetch`, with payload type `P`. */
  datatype Request<P> =
    | Create(path: string, payload: P)
    | Update(path: string, payload: P)
    | Remove(path: string)
    | PostMedia(form: Upload)

  /** The reply to a create request: a failure, or the created record. */
  datatype AddReply<D> = AddFailed | AddOk(id: int, data: D)

  /** The reply to a media upload: a failure, or the new file's id (if the
      body names one) and link. */
  datatype UploadReply = UploadFailed | UploadOk(mediaId: Option<int>, link: string)

  /** The path of one record under a section's endpoint: `/skill/7`. */
  function ItemPath(base: string, id: int): (p: string)
    ensures StartsWith(p, base + "/")
  {
    base + "/" + IntToString(id)
  }

  /** The id parses back from what follows the endpoint and the slash. */
  lemma ItemPathId(base: string, id: int)
    ensures ParseInt(ItemPath(base, id)[|base| + 1..]) == Some(id)
  {
    assert ItemPath(base, id)[|base| + 1..] == IntToString(id);
    ParseIntOfIntToString(id);
  }

  /** Under one endpoint, different records have different paths. */
  lemma ItemPathInjective(base: string, a: int, b: int)
    requires ItemPath(base, a) == ItemPath(base, b)
    ensures a == b
  {
    ItemPathId(base, a);
    ItemPathId(base, b);
  }

  const MediaPath: string := "/media"

  // -----------------------------------------------------------------------
  // Loading

  /** The reply to one entry's media request: a non-OK status, a thrown
      error, or a body whose `result` may be missing. */
  datatype MediaReply = MediaNotOk | MediaThrew | MediaOk(result: Option<seq<RawMedia>>)

  /** An entry as listed, with the reply to its media request. */
  datatype RawEntry<D> = RawEntry(id: int, data: D, media: MediaReply)

  /** `data.result`: missing, present but not an array, or an array. */
  datatype ListResult<D> = NotArray | Items(raws: seq<RawEntry<D>>)

  /** The reply to the section's list request: a failure (a non-OK status or
      a thrown error) or a body whose `result` may be missing. */
  datatype ListReply<D> = ListFailed | ListOk(result: Option<ListResult<D>>)

  /** One entry's gallery. A non-OK media status gives an empty gallery. A
      thrown error or a missing `result` rejects the whole `Promise.all`
      (`None`) unless the section catches per entry (`perEntryCatch`), in
      which case that entry's gallery is empty. */
  function GalleryOf(reply: MediaReply, perEntryCatch: bool): (r: Option<seq<MediaFile>>)
    ensures r.None? <==> !perEntryCatch && (reply.MediaThrew? || (reply.MediaOk? && reply.result.None?))
    ensures r.Some? && reply.MediaOk? && reply.result.Some? ==> r.value == FormattedAll(reply.result.value)
    ensures r.Some? && !(reply.MediaOk? && reply.result.Some?) ==> r.value == []
  {
    match reply
    case MediaNotOk => Some([])
    case MediaThrew => if perEntryCatch then Some([]) else None
    case MediaOk(None) => if perEntryCatch then Some([]) else None
    case MediaOk(Some(raws)) => Some(FormattedAll(raws))
  }

  predicate Readable<D>(raws: seq<RawEntry<D>>, perEntryCatch: bool) {
    forall i :: 0 <= i < |raws| ==> GalleryOf(raws[i].media, perEntryCatch).Some?
  }

  /** The entries with their galleries, when every gallery could be read. */
  function WithGalleries<D>(raws: seq<RawEntry<D>>, perEntryCatch: bool): (r: seq<Entry<D>>)
    requires Readable(raws, perEntryCatch)
    ensures |r| == |raws|
    ensures forall i :: 0 <= i < |raws| ==>
      r[i] == Entry(raws[i].id, raws[i].data, GalleryOf(raws[i].media, perEntryCatch).value)
  {
    if raws == [] then []
    else
      var head := Entry(raws[0].id, raws[0].data, GalleryOf(raws[0].media, perEntryCatch).value);
      [head] + WithGalleries(raws[1..], perEntryCatch)
  }

  /** The reply lists an array of entries whose galleries can all be read. */
  predicate Listed<D>(reply: ListReply<D>, perEntryCatch: bool) {
    reply.ListOk? && reply.result.Some? && reply.result.value.Items? &&
    Readable(reply.result.value.raws, perEntryCatch)
  }

  /** The list a section shows after its fetch: the listed entries, in order,
      each with its gallery; the empty list when the request fails, when
      `result` is missing or not an array, or when one gallery rejects. */
  function Loaded<D>(reply: ListReply<D>, perEntryCatch: bool): (r: seq<Entry<D>>)
    ensures Listed(reply, perEntryCatch) ==> r == WithGalleries(reply.result.value.raws, perEntryCatch)
    ensures !Listed(reply, perEntryCatch) ==> r == []
  {
    match reply
    case ListOk(Some(Items(raws))) =>
      if Readable(raws, perEntryCatch) then WithGalleries(raws, perEntryCatch) else []
    case _ => []
  }

  /** A section that catches per entry never loses a listed entry to a
      failing gallery: every listed entry is shown, with its id and fields. */
  lemma PerEntryCatchKeepsEveryEntry<D>(raws: seq<RawEntry<D>>)
    ensures var r := Loaded(ListOk(Some(Items(raws))), true);
      && |r| == |raws|
      && forall i :: 0 <= i < |raws| ==> r[i].id == raws[i].id && r[i].data == raws[i].data
  {
    assert Readable(raws, true);
  }

  // -----------------------------------------------------------------------
  // Updating the entry with an id

  /** `list.map(e => e.id === id ? f(e) : e)`. */
  function MapWhere<D>(list: seq<Entry<D>>, id: int, f: Entry<D> -> Entry<D>): (r: seq<Entry<D>>)
    ensures |r| == |list|
    ensures forall i :: 0 <= i < |list| ==> r[i] == if list[i].id == id then f(list[i]) else list[i]
  {
    if list == [] then []
    else [if list[0].id == id then f(list[0]) else list[0]] + MapWhere(list[1..], id, f)
  }

  /** `{ ...e, ...payload }` on the entries with that id: their fields become
      the payload; ids, galleries and every other entry stay as they were. */
  function SetData<D>(list: seq<Entry<D>>, id: int, payload: D): (r: seq<Entry<D>>)
    ensures |r| == |list|
    ensures forall i :: 0 <= i < |list| ==> r[i].id == list[i].id && r[i].mediaFiles == list[i].mediaFiles
    ensures forall i :: 0 <= i < |list| ==> r[i].data == if list[i].id == id then payload else list[i].data
  {
    MapWhere(list, id, (e: Entry<D>) => e.(data := payload))
  }

  /** Setting the same payload twice is setting it once. */
  lemma {:induction false} SetDataIdempotent<D>(list: seq<Entry<D>>, id: int, payload: D)
    ensures SetData(SetData(list, id, payload), id, payload) == SetData(list, id, payload)
  {
    var once := SetData(list, id, payload);
    var twice := SetData(once, id, payload);
    assert |twice| == |once|;
    forall i | 0 <= i < |once| ensures twice[i] == once[i] {
    }
  }

  /** `list.map(e => e.id === id ? replacement : e)`. */
  function Replace<D>(list: seq<Entry<D>>, id: int, replacement: Entry<D>): (r: seq<Entry<D>>)
    ensures |r| == |list|
    ensures forall i :: 0 <= i < |list| ==> r[i] == if list[i].id == id then replacement else list[i]
  {
    MapWhere(list, id, e => replacement)
  }

  /** The first entry with that id (`list.find(...)`). */
  function Find<D>(list: seq<Entry<D>>, id: int): (r: Option<Entry<D>>)
    ensures r.Some? <==> exists i :: 0 <= i < |list| && list[i].id == id
    ensures r.Some? ==> r.value in list && r.value.id == id
    ensures r.Some? ==> exists i :: 0 <= i < |list| && list[i] == r.value && forall j :: 0 <= j < i ==> list[j].id != id
  {
    if list == [] then None
    else if list[0].id == id then Some(list[0])
    else
      var rest := Find(list[1..], id);
      assert forall i :: 1 <= i < |list| ==> list[i] == list[1..][i - 1];
      FindStep(list, id, rest);
      rest
  }

  /** A first match in the tail is a first match in the whole list when the
      head does not match. */
  lemma FindStep<D>(list: seq<Entry<D>>, id: int, rest: Option<Entry<D>>)
    requires list != [] && list[0].id != id
    requires rest.Some? ==> exists i :: 0 <= i < |list[1..]| && list[1..][i] == rest.value
                                        && forall j :: 0 <= j < i ==> list[1..][j].id != id
    ensures rest.Some? ==> exists i :: 0 <= i < |list| && list[i] == rest.value && forall j :: 0 <= j < i ==> list[j].id != id
  {
    if rest.Some? {
      var k :| 0 <= k < |list[1..]| && list[1..][k] == rest.value && forall j :: 0 <= j < k ==> list[1..][j].id != id;
      assert list[k + 1] == rest.value;
      forall j | 0 <= j < k + 1 ensures list[j].id != id {
        if j > 0 {
          assert list[j] == list[1..][j - 1];
        }
      }
    }
  }

  predicate UniqueIds<D>(list: seq<Entry<D>>) {
    forall i, j :: 0 <= i < j < |list| ==> list[i].id != list[j].id
  }

  /** With distinct ids, replacing the found entry by a copy with new fields
      is the same as setting those fields on it. */
  lemma ReplaceFoundIsSetData<D>(list: seq<Entry<D>>, id: int, payload: D)
    requires UniqueIds(list) && Find(list, id).Some?
    ensures Replace(list, id, Find(list, id).value.(data := payload)) == SetData(list, id, payload)
  {
    var found := Find(list, id).value;
    var a, b := Replace(list, id, found.(data := payload)), SetData(list, id, payload);
    forall i | 0 <= i < |list| ensures a[i] == b[i] {
      if list[i].id == id {
        var k :| 0 <= k < |list| && list[k] == found;
        assert k == i;
      }
    }
  }

  // -----------------------------------------------------------------------
  // Deleting

  predicate Other<D>(id: int, e: Entry<D>) {
    e.id != id
  }

  /** `list.filter(e => e.id !== id)`. */
  function Delete<D(!new)>(list: seq<Entry<D>>, id: int): (r: seq<Entry<D>>)
    ensures forall e :: e in r <==> e in list && e.id != id
    ensures |r| <= |list|
  {
    Filter(list, e => Other(id, e))
  }

  /** Deleting distributes over concatenation, so the entries left keep their
      relative order. */
  lemma DeleteKeepsOrder<D(!new)>(a: seq<Entry<D>>, b: seq<Entry<D>>, id: int)
    ensures Delete(a + b, id) == Delete(a, id) + Delete(b, id)
  {
    FilterAppend(a, b, e => Other(id, e));
  }

  /** Deleting an entry just appended under a fresh id gives back the list. */
  lemma DeleteUndoesAppend<D(!new)>(list: seq<Entry<D>>, e: Entry<D>)
    requires forall i :: 0 <= i < |list| ==> list[i].id != e.id
    ensures Delete(list + [e], e.id) == list
  {
    DeleteKeepsOrder(list, [e], e.id);
    FilterAll(list, (x: Entry<D>) => Other(e.id, x));
  }

  // -----------------------------------------------------------------------
  // Galleries

  /** `{ ...e, mediaFiles: [...e.mediaFiles, m] }` on the entries with that id. */
  function AddMedia<D>(list: seq<Entry<D>>, id: int, m: MediaFile): (r: seq<Entry<D>>)
    ensures |r| == |list|
    ensures forall i :: 0 <= i < |list| ==> r[i].id == list[i].id && r[i].data == list[i].data
    ensures forall i :: 0 <= i < |list| ==>
      r[i].mediaFiles == if list[i].id == id then list[i].mediaFiles + [m] else list[i].mediaFiles
  {
    MapWhere(list, id, (e: Entry<D>) => e.(mediaFiles := e.mediaFiles + [m]))
  }

  /** `{ ...e, mediaFiles: e.mediaFiles.filter(...) }` on the entries with that id. */
  function RemoveMediaFrom<D>(list: seq<Entry<D>>, id: int, mediaId: int): (r: seq<Entry<D>>)
    ensures |r| == |list|
    ensures forall i :: 0 <= i < |list| ==> r[i].id == list[i].id && r[i].data == list[i].data
    ensures forall i :: 0 <= i < |list| ==>
      r[i].mediaFiles == if list[i].id == id then RemoveMedia(list[i].mediaFiles, mediaId) else list[i].mediaFiles
  {
    MapWhere(list, id, (e: Entry<D>) => e.(mediaFiles := RemoveMedia(e.mediaFiles, mediaId)))
  }

  /** Uploading a file that comes back with a fresh media id and then deleting
      that id from the same entry gives back the list as it was. */
  lemma RemoveUndoesAddMedia<D>(list: seq<Entry<D>>, id: int, m: MediaFile, mediaId: int)
    requires m.mediaId == Some(mediaId)
    requires forall i, k :: 0 <= i < |list| && list[i].id == id && 0 <= k < |list[i].mediaFiles| ==>
      list[i].mediaFiles[k].mediaId != Some(mediaId)
    ensures RemoveMediaFrom(AddMedia(list, id, m), id, mediaId) == list
  {
    var r := RemoveMediaFrom(AddMedia(list, id, m), id, mediaId);
    forall i | 0 <= i < |list| ensures r[i] == list[i] {
      if list[i].id == id {
        RemoveUndoesAppend(list[i].mediaFiles, m, mediaId);
      }
    }
  }
}
