/** The experience section of the portfolio (`ExperiencePage`): jobs with
    their galleries, and the owner's add, edit, delete and media handlers.
    Unlike the other sections it appends a created entry only when the reply
    carries a usable id, does not refetch after an edit or an upload, keeps
    an entry whose gallery fails to load, and clears the file input after
    every upload attempt. Replies and the login state are parameters. */
module Experiences {
  import opened Common
  import opened Media
  import opened Entries

  const ExpPath: string := "/exp"
  const EntityType: string := "EXPERIENCE"

  datatype ExpData = ExpData(name: string, position: string, description: string, startDate: string,
                             endDate: string)

  const EmptyExp: ExpData := ExpData("", "", "", "", "")

  predicate IsExpField(field: string) {
    field in {"name", "position", "description", "startDate", "endDate"}
  }

  /** Reading a field by name; `None` for a name the record does not have. */
  function FieldOf(d: ExpData, field: string): (r: Option<string>)
    ensures r.Some? <==> IsExpField(field)
  {
    if field == "name" then Some(d.name)
    else if field == "position" then Some(d.position)
    else if field == "description" then Some(d.description)
    else if field == "startDate" then Some(d.startDate)
    else if field == "endDate" then Some(d.endDate)
    else None
  }

  /** `{ ...exp, [field]: value }` on the five fields (and each input of the
      add form). A name that is not one of them adds a key the request never
      sends, so the fields stay as they are. */
  function WithField(d: ExpData, field: string, value: string): ExpData {
    ExpData(if field == "name" then value else d.name,
            if field == "position" then value else d.position,
            if field == "description" then value else d.description,
            if field == "startDate" then value else d.startDate,
            if field == "endDate" then value else d.endDate)
  }

  /** The edited field reads back the new text, every other field reads as
      before, writing back a field's own text changes nothing, and the later
      of two writes wins. */
  lemma WithFieldLaws(d: ExpData, field: string, value: string, value2: string, other: string)
    ensures IsExpField(field) ==> FieldOf(WithField(d, field, value), field) == Some(value)
    ensures other != field ==> FieldOf(WithField(d, field, value), other) == FieldOf(d, other)
    ensures IsExpField(field) ==> WithField(d, field, FieldOf(d, field).value) == d
    ensures WithField(WithField(d, field, value), field, value2) == WithField(d, field, value2)
  {
  }

  /** `addedExpData.result`: the created experience, whose `expId` may be
      missing. */
  datatype CreatedExp = CreatedExp(expId: Option<int>, data: ExpData)

  /** The reply to the create request: a failure, or a body whose `result`
      may be missing. */
  datatype ExpAddReply = ExpAddFailed | ExpAddOk(result: Option<CreatedExp>)

  /** `newExpItem && newExpItem.expId && newExpItem.expId > 0`: the id the
      created experience is appended under, if it has a usable one. */
  function UsableId(result: Option<CreatedExp>): (r: Option<int>)
    ensures r.Some? <==> result.Some? && result.value.expId.Some? && result.value.expId.value > 0
    ensures r.Some? ==> r.value > 0 && r == result.value.expId
  {
    if result.Some? && result.value.expId.Some? && result.value.expId.value > 0 then result.value.expId
    else None
  }

  /** `newMediaData.result`: the uploaded file's id and link. */
  datatype UploadedMedia = UploadedMedia(mediaId: Option<int>, link: string)

  /** The reply to an upload: a failure, or a body whose `result` may be
      missing (reading it then throws). */
  datatype ExpUploadReply = ExpUploadFailed | ExpUploadOk(result: Option<UploadedMedia>)

  /** Every field of the component's state. */
  datatype ExpState = ExpState(
    experienceList: seq<Entry<ExpData>>,
    filters: map<int, MediaFilter>,
    editing: Option<Editing>,
    showAddForm: bool,
    newExperience: ExpData,
    showAddMediaModal: bool,
    mediaTarget: Option<int>,
    fileInput: Option<FileChoice>,
    requests: seq<Request<ExpData>>,
    refetches: nat)

  class ExperienceManager {
    var experienceList: seq<Entry<ExpData>>
    var filters: map<int, MediaFilter>
    var editing: Option<Editing>
    var showAddForm: bool
    var newExperience: ExpData
    var showAddMediaModal: bool
    /** `currentEntityForMedia`: the entry the media dialog uploads to. */
    var mediaTarget: Option<int>
    /** The file input's selection (`None` once cleared). */
    var fileInput: Option<FileChoice>
    var requests: seq<Request<ExpData>>
    var refetches: nat

    function State(): ExpState
      reads this
    {
      ExpState(experienceList, filters, editing, showAddForm, newExperience, showAddMediaModal,
               mediaTarget, fileInput, requests, refetches)
    }

    constructor ()
      ensures State() == ExpState([], map[], None, false, EmptyExp, false, None, None, [], 0)
    {
      experienceList, filters, editing, showAddForm, newExperience := [], map[], None, false, EmptyExp;
      showAddMediaModal, mediaTarget, fileInput, requests, refetches := false, None, None, [], 0;
    }

    /** `fetchExp` with the reply to the list request: no request without a
      user id; otherwise every listed entry, an entry whose gallery cannot
      be read getting an empty one; none when `result` is not an array. */
    method Load(userId: string, reply: ListReply<ExpData>)
      modifies this
      ensures userId == "" ==> State() == old(State())
      ensures userId != "" ==> State() == old(State()).(experienceList := Loaded(reply, true))
    {
      if userId != "" {
        experienceList := Loaded(reply, true);
      }
    }

    /** One input of the add form. */
    method TypeField(field: string, value: string)
      modifies this
      ensures State() == old(State()).(newExperience := WithField(old(newExperience), field, value))
    {
      newExperience := WithField(newExperience, field, value);
    }

    /** `handleAddExp`: refused, with nothing sent, when logged out or when
      the company name is blank (it trims to "", see `TrimEmptyIffBlank`); otherwise the form is posted. An OK
      reply whose result has an id above zero appends it with an empty
      gallery; any other OK reply refetches instead; either way the form is
      reset and closed. A failed request changes nothing else. */
    method AddExp(isLogin: bool, reply: ExpAddReply)
      modifies this
      ensures !isLogin || AllWhitespace(old(newExperience.name)) ==> State() == old(State())
      ensures isLogin && !AllWhitespace(old(newExperience.name)) && reply.ExpAddFailed? ==>
        State() == old(State()).(requests := old(requests) + [Create(ExpPath, old(newExperience))])
      ensures isLogin && !AllWhitespace(old(newExperience.name)) && reply.ExpAddOk? && UsableId(reply.result).Some? ==>
        State() == old(State()).(
          requests := old(requests) + [Create(ExpPath, old(newExperience))],
          experienceList := old(experienceList) + [Entry(UsableId(reply.result).value, reply.result.value.data, [])],
          newExperience := EmptyExp, showAddForm := false)
      ensures isLogin && !AllWhitespace(old(newExperience.name)) && reply.ExpAddOk? && UsableId(reply.result).None? ==>
        State() == old(State()).(
          requests := old(requests) + [Create(ExpPath, old(newExperience))],
          refetches := old(refetches) + 1,
          newExperience := EmptyExp, showAddForm := false)
    {
      if !isLogin || AllWhitespace(newExperience.name) {
        return;
      }
      requests := requests + [Create(ExpPath, newExperience)];
      if reply.ExpAddOk? {
        var id := UsableId(reply.result);
        if id.Some? {
          experienceList := experienceList + [Entry(id.value, reply.result.value.data, [])];
        } else {
          refetches := refetches + 1;
        }
        newExperience := EmptyExp;
        showAddForm := false;
      }
    }

    /** The pencil button: start editing one field from its current text. */
    method StartEdit(e: Editing)
      modifies this
      ensures State() == old(State()).(editing := Some(e))
    {
      editing := Some(e);
    }

    /** The cross button beside an edited field: leave the edit without
      sending anything. */
    method CancelEdit()
      modifies this
      ensures State() == old(State()).(editing := None)
    {
      editing := None;
    }

    /** `updatedPayload`: the first entry with the edited id, with the edited
      field replaced; `None` without an edit or without such an entry. */
    function Edited(): (r: Option<Entry<ExpData>>)
      reads this
      ensures r.Some? <==> editing.Some? && Find(experienceList, editing.value.id).Some?
      ensures r.Some? ==> r.value.id == editing.value.id
    {
      if editing.Some? && Find(experienceList, editing.value.id).Some? then
        var found := Find(experienceList, editing.value.id).value;
        Some(found.(data := WithField(found.data, editing.value.field, editing.value.value)))
      else None
    }

    /** The `try` block of `handleUpdateField`: the five fields are sent, and
      an OK reply puts the edited copy in place of the entries with that id
      and ends the edit, without a refetch. */
    method SaveEdit(updated: Entry<ExpData>, ok: bool)
      modifies this
      ensures !ok ==> State() == old(State()).(requests := old(requests) + [Update(ItemPath(ExpPath, updated.id), updated.data)])
      ensures ok ==> State() == old(State()).(
        requests := old(requests) + [Update(ItemPath(ExpPath, updated.id), updated.data)],
        experienceList := Replace(old(experienceList), updated.id, updated),
        editing := None)
    {
      requests := requests + [Update(ItemPath(ExpPath, updated.id), updated.data)];
      if ok {
        experienceList := Replace(experienceList, updated.id, updated);
        editing := None;
      }
    }

    /** `handleUpdateField`: logged out, without an edit, or without an entry
      of that id, nothing happens (the edit stays open); otherwise the edited
      copy is saved. */
    method UpdateField(isLogin: bool, ok: bool)
      modifies this
      ensures !isLogin || old(Edited()).None? ==> State() == old(State())
      ensures isLogin && old(Edited()).Some? && !ok ==>
        State() == old(State()).(requests := old(requests) + [Update(ItemPath(ExpPath, old(editing).value.id), old(Edited()).value.data)])
      ensures isLogin && old(Edited()).Some? && ok ==>
        State() == old(State()).(
          requests := old(requests) + [Update(ItemPath(ExpPath, old(editing).value.id), old(Edited()).value.data)],
          experienceList := Replace(old(experienceList), old(editing).value.id, old(Edited()).value),
          editing := None)
    {
      if !isLogin {
        return;
      }
      var updated := Edited();
      if updated.None? {
        return;
      }
      SaveEdit(updated.value, ok);
    }

    /** `handleDeleteExp`: after login and confirmation, the DELETE is sent
      and an OK reply removes every entry with that id. */
    method DeleteExp(isLogin: bool, confirmed: bool, id: int, ok: bool)
      modifies this
      ensures !isLogin || !confirmed ==> State() == old(State())
      ensures isLogin && confirmed ==>
        State() == old(State()).(requests := old(requests) + [Remove(ItemPath(ExpPath, id))],
                                 experienceList := if ok then Delete(old(experienceList), id) else old(experienceList))
    {
      if !isLogin || !confirmed {
        return;
      }
      requests := requests + [Remove(ItemPath(ExpPath, id))];
      if ok {
        experienceList := Delete(experienceList, id);
      }
    }

    /** The gallery's "add media" button for one entry. */
    method OpenAddMedia(id: int)
      modifies this
      ensures State() == old(State()).(mediaTarget := Some(id), showAddMediaModal := true)
    {
      mediaTarget := Some(id);
      showAddMediaModal := true;
    }

    /** The close button of the media dialog: only hides it; the target
      entity is kept. */
    method CloseMediaModal()
      modifies this
      ensures State() == old(State()).(showAddMediaModal := false)
    {
      showAddMediaModal := false;
    }

    /** The add button opens the add form; it is rendered only for a
      logged-in user, so without a login nothing changes. */
    method OpenAddForm(isLogin: bool)
      modifies this
      ensures State() == if isLogin then old(State()).(showAddForm := true) else old(State())
    {
      if isLogin {
        showAddForm := true;
      }
    }

    /** The close and cancel buttons of the add form hide it and keep what
      was typed. */
    method CloseAddForm()
      modifies this
      ensures State() == old(State()).(showAddForm := false)
    {
      showAddForm := false;
    }

    /** `handleMediaFileChange` for the picked file: logged out, without a
      file or without a target, nothing happens; a file that is neither an
      image nor a video is refused (the input keeps it); otherwise the form
      is posted and, whatever the reply, the input is cleared. An OK reply
      with a `result` appends the new file, with that result's id and link,
      to that entry's gallery only and closes the dialog. */
    method MediaFileChange(isLogin: bool, file: Option<FileChoice>, reply: ExpUploadReply)
      modifies this
      ensures !isLogin || file.None? || old(mediaTarget).None? ==> State() == old(State()).(fileInput := file)
      ensures isLogin && file.Some? && old(mediaTarget).Some? && UploadKind(file.value.mimeType).None? ==>
        State() == old(State()).(fileInput := file)
      ensures isLogin && file.Some? && old(mediaTarget).Some? && UploadKind(file.value.mimeType).Some? ==>
        var target := old(mediaTarget).value;
        var sent := old(requests) + [PostMedia(Upload(EntityType, target, file.value.mimeType, file.value.name))];
        State() == if reply.ExpUploadOk? && reply.result.Some? then
            old(State()).(requests := sent,
              experienceList := AddMedia(old(experienceList), target,
                MediaFile(reply.result.value.mediaId, reply.result.value.link, UploadKind(file.value.mimeType).value)),
              showAddMediaModal := false, mediaTarget := None, fileInput := None)
          else old(State()).(requests := sent, fileInput := None)
    {
      fileInput := file;
      if !isLogin || file.None? || mediaTarget.None? {
        return;
      }
      var kind := UploadKind(file.value.mimeType);
      if kind.None? {
        return;
      }
      var target := mediaTarget.value;
      requests := requests + [PostMedia(Upload(EntityType, target, file.value.mimeType, file.value.name))];
      if reply.ExpUploadOk? && reply.result.Some? {
        var uploaded := reply.result.value;
        experienceList := AddMedia(experienceList, target, MediaFile(uploaded.mediaId, uploaded.link, kind.value));
        showAddMediaModal := false;
        mediaTarget := None;
      }
      // the `finally` block
      fileInput := None;
    }

    /** `handleDeleteMedia`: after login and confirmation, the DELETE is sent
      and an OK reply removes the files with that media id from that entry's
      gallery only. */
    method DeleteMedia(isLogin: bool, confirmed: bool, expId: int, mediaId: int, ok: bool)
      modifies this
      ensures !isLogin || !confirmed ==> State() == old(State())
      ensures isLogin && confirmed ==>
        State() == old(State()).(requests := old(requests) + [Remove(ItemPath(MediaPath, mediaId))],
                                 experienceList := if ok then RemoveMediaFrom(old(experienceList), expId, mediaId)
                                                   else old(experienceList))
    {
      if !isLogin || !confirmed {
        return;
      }
      requests := requests + [Remove(ItemPath(MediaPath, mediaId))];
      if ok {
        experienceList := RemoveMediaFrom(experienceList, expId, mediaId);
      }
    }

    /** `handleFilter`: the gallery filter of one entry. */
    method SelectFilter(id: int, f: MediaFilter)
      modifies this
      ensures State() == old(State()).(filters := old(filters)[id := f])
    {
      filters := filters[id := f];
    }

    /** What the gallery of an entry shows under its filter. */
    function Gallery(e: Entry<ExpData>): (r: seq<MediaFile>)
      reads this
      ensures FilterFor(filters, e.id).All? ==> r == e.mediaFiles
      ensures FilterFor(filters, e.id).Only? ==>
        forall m :: m in r <==> m in e.mediaFiles && m.kind == FilterFor(filters, e.id).kind
    {
      Visible(e.mediaFiles, FilterFor(filters, e.id))
    }
  }

  /** With distinct ids, the edit's replacement of the whole entry changes
      exactly what setting the new fields on it would: the id and the
      gallery are kept, only the entry with that id changes. */
  lemma EditIsFieldUpdate(list: seq<Entry<ExpData>>, e: Editing)
    requires UniqueIds(list) && Find(list, e.id).Some?
    ensures var found := Find(list, e.id).value;
      Replace(list, e.id, found.(data := WithField(found.data, e.field, e.value)))
        == SetData(list, e.id, WithField(found.data, e.field, e.value))
  {
    ReplaceFoundIsSetData(list, e.id, WithField(Find(list, e.id).value.data, e.field, e.value));
  }
}
