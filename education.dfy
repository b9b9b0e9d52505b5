/** The education section of the portfolio (`Education`): schools with their
    galleries, and the owner's add, edit, delete and media handlers. Replies
    from the backend and the login state are parameters; a refetch is
    counted in `refetches` and its result applied by `Load`. */
module Education {
  import opened Common
  import opened Media
  import opened Entries

  const EduPath: string := "/edu"
  const EntityType: string := "EDUCATION"

  datatype EduData = EduData(schoolName: string, degree: string, startDate: string, endDate: string,
                             description: string)

  const EmptyEdu: EduData := EduData("", "", "", "", "")

  predicate IsEduField(field: string) {
    field in {"schoolName", "degree", "startDate", "endDate", "description"}
  }

  /** Reading a field by name; `None` for a name the record does not have. */
  function FieldOf(d: EduData, field: string): (r: Option<string>)
    ensures r.Some? <==> IsEduField(field)
  {
    if field == "schoolName" then Some(d.schoolName)
    else if field == "degree" then Some(d.degree)
    else if field == "startDate" then Some(d.startDate)
    else if field == "endDate" then Some(d.endDate)
    else if field == "description" then Some(d.description)
    else None
  }

  /** `updatedPayload` (and each input of the add form): the named field
      takes the new text, the four others keep their values. */
  function WithField(d: EduData, field: string, value: string): EduData {
    EduData(if field == "schoolName" then value else d.schoolName,
            if field == "degree" then value else d.degree,
            if field == "startDate" then value else d.startDate,
            if field == "endDate" then value else d.endDate,
            if field == "description" then value else d.description)
  }

  /** The edited field reads back the new text, every other field reads as
      before, and an unknown field name changes nothing. */
  lemma WithFieldIsFieldwise(d: EduData, field: string, value: string, other: string)
    ensures IsEduField(field) ==> FieldOf(WithField(d, field, value), field) == Some(value)
    ensures other != field ==> FieldOf(WithField(d, field, value), other) == FieldOf(d, other)
    ensures !IsEduField(field) ==> WithField(d, field, value) == d
  {
  }

  /** Writing back a field's own text changes nothing, and the later of two
      writes to a field wins. */
  lemma WithFieldLaws(d: EduData, field: string, value: string, value2: string)
    ensures IsEduField(field) ==> WithField(d, field, FieldOf(d, field).value) == d
    ensures WithField(WithField(d, field, value), field, value2) == WithField(d, field, value2)
  {
  }

  /** Every field of the component's state. */
  datatype EduState = EduState(
    educationList: seq<Entry<EduData>>,
    filters: map<int, MediaFilter>,
    editing: Option<Editing>,
    showAddForm: bool,
    newEducation: EduData,
    showAddMediaModal: bool,
    mediaTarget: Option<int>,
    fileInput: Option<FileChoice>,
    requests: seq<Request<EduData>>,
    refetches: nat)

  class EducationManager {
    var educationList: seq<Entry<EduData>>
    var filters: map<int, MediaFilter>
    var editing: Option<Editing>
    var showAddForm: bool
    var newEducation: EduData
    var showAddMediaModal: bool
    /** `currentEntityForMedia`: the entry the media dialog uploads to. */
    var mediaTarget: Option<int>
    /** The file input's selection (`None` once cleared). */
    var fileInput: Option<FileChoice>
    var requests: seq<Request<EduData>>
    var refetches: nat

    function State(): EduState
      reads this
    {
      EduState(educationList, filters, editing, showAddForm, newEducation, showAddMediaModal,
               mediaTarget, fileInput, requests, refetches)
    }

    constructor ()
      ensures State() == EduState([], map[], None, false, EmptyEdu, false, None, None, [], 0)
    {
      educationList, filters, editing, showAddForm, newEducation := [], map[], None, false, EmptyEdu;
      showAddMediaModal, mediaTarget, fileInput, requests, refetches := false, None, None, [], 0;
    }

    /** `fetchEdus` with the reply to the list request: no request without a
      user id; otherwise the listed entries with their galleries, or none
      when `result` is not an array or a gallery rejects. */
    method Load(userId: string, reply: ListReply<EduData>)
      modifies this
      ensures userId == "" ==> State() == old(State())
      ensures userId != "" ==> State() == old(State()).(educationList := Loaded(reply, false))
    {
      if userId != "" {
        educationList := Loaded(reply, false);
      }
    }

    /** One input of the add form. */
    method TypeField(field: string, value: string)
      modifies this
      ensures State() == old(State()).(newEducation := WithField(old(newEducation), field, value))
    {
      newEducation := WithField(newEducation, field, value);
    }

    /** `handleAddEdu`: refused, with nothing sent, when logged out or when
      the school name is blank (it trims to "", see `TrimEmptyIffBlank`); otherwise the five fields are
      posted, and an OK reply appends the created entry with an empty
      gallery, resets and closes the form, and refetches. */
    method AddEdu(isLogin: bool, reply: AddReply<EduData>)
      modifies this
      ensures !isLogin || AllWhitespace(old(newEducation.schoolName)) ==> State() == old(State())
      ensures isLogin && !AllWhitespace(old(newEducation.schoolName)) && reply.AddFailed? ==>
        State() == old(State()).(requests := old(requests) + [Create(EduPath, old(newEducation))])
      ensures isLogin && !AllWhitespace(old(newEducation.schoolName)) && reply.AddOk? ==>
        State() == old(State()).(
          requests := old(requests) + [Create(EduPath, old(newEducation))],
          educationList := old(educationList) + [Entry(reply.id, reply.data, [])],
          newEducation := EmptyEdu, showAddForm := false, refetches := old(refetches) + 1)
    {
      if !isLogin || AllWhitespace(newEducation.schoolName) {
        return;
      }
      requests := requests + [Create(EduPath, newEducation)];
      if reply.AddOk? {
        educationList := educationList + [Entry(reply.id, reply.data, [])];
        newEducation := EmptyEdu;
        showAddForm := false;
        refetches := refetches + 1;
      }
    }

    /** The pencil button: start editing one field from its current text. */
    method StartEdit(e: Editing)
      modifies this
      ensures State() == old(State()).(editing := Some(e))
    {
      editing := Some(e);
    }

    /** The cross button beside an edited field: leave the edit without
      sending anything. */
    method CancelEdit()
      modifies this
      ensures State() == old(State()).(editing := None)
    {
      editing := None;
    }

    /** The payload `handleUpdateField` would send: the edited entry's five
      fields with the edited one replaced; `None` without an edit or without
      an entry of that id. */
    function EditPayload(): (r: Option<EduData>)
      reads this
      ensures r.Some? <==> editing.Some? && Find(educationList, editing.value.id).Some?
    {
      if editing.Some? && Find(educationList, editing.value.id).Some? then
        Some(WithField(Find(educationList, editing.value.id).value.data, editing.value.field, editing.value.value))
      else None
    }

    /** The `try` block of `handleUpdateField`: the PUT is sent, and an OK
      reply sets the payload on the entries with that id only, ends the edit
      and refetches. */
    method SaveEdit(id: int, payload: EduData, ok: bool)
      modifies this
      ensures !ok ==> State() == old(State()).(requests := old(requests) + [Update(ItemPath(EduPath, id), payload)])
      ensures ok ==> State() == old(State()).(
        requests := old(requests) + [Update(ItemPath(EduPath, id), payload)],
        educationList := SetData(old(educationList), id, payload),
        editing := None, refetches := old(refetches) + 1)
    {
      requests := requests + [Update(ItemPath(EduPath, id), payload)];
      if ok {
        educationList := SetData(educationList, id, payload);
        editing := None;
        refetches := refetches + 1;
      }
    }

    /** `handleUpdateField`: logged out, the edit is dropped; without an edit
      or without an entry of that id nothing is sent; otherwise the payload
      is saved. */
    method UpdateField(isLogin: bool, ok: bool)
      modifies this
      ensures !isLogin ==> State() == old(State()).(editing := None)
      ensures isLogin && old(EditPayload()).None? ==> State() == old(State())
      ensures isLogin && old(EditPayload()).Some? && !ok ==>
        State() == old(State()).(requests := old(requests) + [Update(ItemPath(EduPath, old(editing).value.id), old(EditPayload()).value)])
      ensures isLogin && old(EditPayload()).Some? && ok ==>
        State() == old(State()).(
          requests := old(requests) + [Update(ItemPath(EduPath, old(editing).value.id), old(EditPayload()).value)],
          educationList := SetData(old(educationList), old(editing).value.id, old(EditPayload()).value),
          editing := None, refetches := old(refetches) + 1)
    {
      if !isLogin {
        editing := None;
        return;
      }
      var payload := EditPayload();
      if payload.None? {
        return;
      }
      SaveEdit(editing.value.id, payload.value, ok);
    }

    /** `handleDeleteEdu`: after login and confirmation, the DELETE is sent
      and an OK reply removes every entry with that id. */
    method DeleteEdu(isLogin: bool, confirmed: bool, id: int, ok: bool)
      modifies this
      ensures !isLogin || !confirmed ==> State() == old(State())
      ensures isLogin && confirmed ==>
        State() == old(State()).(requests := old(requests) + [Remove(ItemPath(EduPath, id))],
                                 educationList := if ok then Delete(old(educationList), id) else old(educationList))
    {
      if !isLogin || !confirmed {
        return;
      }
      requests := requests + [Remove(ItemPath(EduPath, id))];
      if ok {
        educationList := Delete(educationList, id);
      }
    }

    /** The gallery's "add media" button for one entry. */
    method OpenAddMedia(id: int)
      modifies this
      ensures State() == old(State()).(mediaTarget := Some(id), showAddMediaModal := true)
    {
      mediaTarget := Some(id);
      showAddMediaModal := true;
    }

    /** The close and cancel buttons of the media dialog: hide it and forget the
      target entity. */
    method CloseMediaModal()
      modifies this
      ensures State() == old(State()).(showAddMediaModal := false, mediaTarget := None)
    {
      showAddMediaModal := false;
      mediaTarget := None;
    }

    /** The add button opens the add form; it is rendered only for a
      logged-in user, so without a login nothing changes. */
    method OpenAddForm(isLogin: bool)
      modifies this
      ensures State() == if isLogin then old(State()).(showAddForm := true) else old(State())
    {
      if isLogin {
        showAddForm := true;
      }
    }

    /** The close and cancel buttons of the add form hide it and keep what
      was typed. */
    method CloseAddForm()
      modifies this
      ensures State() == old(State()).(showAddForm := false)
    {
      showAddForm := false;
    }

    /** `handleMediaFileChange` for the picked file: logged out, the input is
      cleared; without a file or a target nothing happens; a file that is
      neither an image nor a video is refused and the input cleared;
      otherwise the form is posted, and an OK reply appends the new file to
      that entry's gallery only, closes the dialog, clears the input and
      refetches. A failed upload leaves the dialog and the input as they are. */
    method MediaFileChange(isLogin: bool, file: Option<FileChoice>, reply: UploadReply)
      modifies this
      ensures !isLogin ==> State() == old(State()).(fileInput := None)
      ensures isLogin && (file.None? || old(mediaTarget).None?) ==> State() == old(State()).(fileInput := file)
      ensures isLogin && file.Some? && old(mediaTarget).Some? && UploadKind(file.value.mimeType).None? ==>
        State() == old(State()).(fileInput := None)
      ensures isLogin && file.Some? && old(mediaTarget).Some? && UploadKind(file.value.mimeType).Some? ==>
        var target := old(mediaTarget).value;
        var sent := old(requests) + [PostMedia(Upload(EntityType, target, file.value.mimeType, file.value.name))];
        State() == match reply
          case UploadFailed => old(State()).(fileInput := file, requests := sent)
          case UploadOk(mediaId, link) =>
            old(State()).(requests := sent,
              educationList := AddMedia(old(educationList), target, MediaFile(mediaId, link, UploadKind(file.value.mimeType).value)),
              showAddMediaModal := false, mediaTarget := None, fileInput := None,
              refetches := old(refetches) + 1)
    {
      fileInput := file;
      if !isLogin {
        fileInput := None;
        return;
      }
      if file.None? || mediaTarget.None? {
        return;
      }
      var kind := UploadKind(file.value.mimeType);
      if kind.None? {
        fileInput := None;
        return;
      }
      SendUpload(mediaTarget.value, file.value, kind.value, reply);
    }

    /** The upload step of `handleMediaFileChange`: the form is posted for
      the target entry, and an OK reply appends the new file to that entry's
      gallery only, closes the dialog, clears the input and refetches. */
    method SendUpload(target: int, file: FileChoice, kind: MediaKind, reply: UploadReply)
      modifies this
      ensures var sent := old(requests) + [PostMedia(Upload(EntityType, target, file.mimeType, file.name))];
        State() == match reply
          case UploadFailed => old(State()).(requests := sent)
          case UploadOk(mediaId, link) =>
            old(State()).(requests := sent,
              educationList := AddMedia(old(educationList), target, MediaFile(mediaId, link, kind)),
              showAddMediaModal := false, mediaTarget := None, fileInput := None,
              refetches := old(refetches) + 1)
    {
      requests := requests + [PostMedia(Upload(EntityType, target, file.mimeType, file.name))];
      if reply.UploadOk? {
        educationList := AddMedia(educationList, target, MediaFile(reply.mediaId, reply.link, kind));
        showAddMediaModal := false;
        mediaTarget := None;
        fileInput := None;
        refetches := refetches + 1;
      }
    }

    /** `handleDeleteMedia`: after login and confirmation, the DELETE is sent
      and an OK reply removes the files with that media id from that entry's
      gallery only. */
    method DeleteMedia(isLogin: bool, confirmed: bool, eduId: int, mediaId: int, ok: bool)
      modifies this
      ensures !isLogin || !confirmed ==> State() == old(State())
      ensures isLogin && confirmed ==>
        State() == old(State()).(requests := old(requests) + [Remove(ItemPath(MediaPath, mediaId))],
                                 educationList := if ok then RemoveMediaFrom(old(educationList), eduId, mediaId)
                                                  else old(educationList))
    {
      if !isLogin || !confirmed {
        return;
      }
      requests := requests + [Remove(ItemPath(MediaPath, mediaId))];
      if ok {
        educationList := RemoveMediaFrom(educationList, eduId, mediaId);
      }
    }

    /** `handleFilter`: the gallery filter of one entry. */
    method SelectFilter(id: int, f: MediaFilter)
      modifies this
      ensures State() == old(State()).(filters := old(filters)[id := f])
    {
      filters := filters[id := f];
    }

    /** What the gallery of an entry shows under its filter. */
    function Gallery(e: Entry<EduData>): (r: seq<MediaFile>)
      reads this
      ensures FilterFor(filters, e.id).All? ==> r == e.mediaFiles
      ensures FilterFor(filters, e.id).Only? ==>
        forall m :: m in r <==> m in e.mediaFiles && m.kind == FilterFor(filters, e.id).kind
    {
      Visible(e.mediaFiles, FilterFor(filters, e.id))
    }
  }
}
