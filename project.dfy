/** The projects section of the portfolio (`ProjectPage`): projects with
    their galleries, and the owner's add, edit, delete and media handlers. Replies
    from the backend and the login state are parameters; a refetch is
    counted in `refetches` and its result applied by `Load`. */
module Project {
  import opened Common
  import opened Media
  import opened Entries

  const ProjectPath: string := "/project"
  const EntityType: string := "PROJECT"

  datatype ProjectData = ProjectData(title: string, tech: string, link: string, description: string)

  const EmptyProject: ProjectData := ProjectData("", "", "", "")

  predicate IsProjectField(field: string) {
    field in {"title", "tech", "link", "description"}
  }

  /** Reading a field by name; `None` for a name the record does not have. */
  function FieldOf(d: ProjectData, field: string): (r: Option<string>)
    ensures r.Some? <==> IsProjectField(field)
  {
    if field == "title" then Some(d.title)
    else if field == "tech" then Some(d.tech)
    else if field == "link" then Some(d.link)
    else if field == "description" then Some(d.description)
    else None
  }

  /** `updatedPayload` (and each input of the add form): the named field
      takes the new text, the three others keep their values. */
  function WithField(d: ProjectData, field: string, value: string): ProjectData {
    ProjectData(if field == "title" then value else d.title,
                if field == "tech" then value else d.tech,
                if field == "link" then value else d.link,
                if field == "description" then value else d.description)
  }

  /** The edited field reads back the new text, every other field reads as
      before, and an unknown field name changes nothing. */
  lemma WithFieldIsFieldwise(d: ProjectData, field: string, value: string, other: string)
    ensures IsProjectField(field) ==> FieldOf(WithField(d, field, value), field) == Some(value)
    ensures other != field ==> FieldOf(WithField(d, field, value), other) == FieldOf(d, other)
    ensures !IsProjectField(field) ==> WithField(d, field, value) == d
  {
  }

  /** Writing back a field's own text changes nothing, and the later of two
      writes to a field wins. */
  lemma WithFieldLaws(d: ProjectData, field: string, value: string, value2: string)
    ensures IsProjectField(field) ==> WithField(d, field, FieldOf(d, field).value) == d
    ensures WithField(WithField(d, field, value), field, value2) == WithField(d, field, value2)
  {
  }

  /** Every field of the component's state. */
  datatype ProjectState = ProjectState(
    projectList: seq<Entry<ProjectData>>,
    filters: map<int, MediaFilter>,
    editing: Option<Editing>,
    showAddForm: bool,
    newProject: ProjectData,
    showAddMediaModal: bool,
    mediaTarget: Option<int>,
    fileInput: Option<FileChoice>,
    requests: seq<Request<ProjectData>>,
    refetches: nat)

  class ProjectManager {
    var projectList: seq<Entry<ProjectData>>
    var filters: map<int, MediaFilter>
    var editing: Option<Editing>
    var showAddForm: bool
    var newProject: ProjectData
    var showAddMediaModal: bool
    /** `currentEntityForMedia`: the entry the media dialog uploads to. */
    var mediaTarget: Option<int>
    /** The file input's selection (`None` once cleared). */
    var fileInput: Option<FileChoice>
    var requests: seq<Request<ProjectData>>
    var refetches: nat

    function State(): ProjectState
      reads this
    {
      ProjectState(projectList, filters, editing, showAddForm, newProject, showAddMediaModal,
               mediaTarget, fileInput, requests, refetches)
    }

    constructor ()
      ensures State() == ProjectState([], map[], None, false, EmptyProject, false, None, None, [], 0)
    {
      projectList, filters, editing, showAddForm, newProject := [], map[], None, false, EmptyProject;
      showAddMediaModal, mediaTarget, fileInput, requests, refetches := false, None, None, [], 0;
    }

    /** `fetchProject` with the reply to the list request: no request without a
      user id; otherwise the listed entries with their galleries, or none
      when `result` is not an array or a gallery rejects. */
    method Load(userId: string, reply: ListReply<ProjectData>)
      modifies this
      ensures userId == "" ==> State() == old(State())
      ensures userId != "" ==> State() == old(State()).(projectList := Loaded(reply, false))
    {
      if userId != "" {
        projectList := Loaded(reply, false);
      }
    }

    /** One input of the add form. */
    method TypeField(field: string, value: string)
      modifies this
      ensures State() == old(State()).(newProject := WithField(old(newProject), field, value))
    {
      newProject := WithField(newProject, field, value);
    }

    /** `handleAddProject`: refused, with nothing sent, when logged out or when
      the title is blank (it trims to "", see `TrimEmptyIffBlank`); otherwise the four fields are
      posted, and an OK reply appends the created entry with an empty
      gallery, resets and closes the form, and refetches. */
    method AddProject(isLogin: bool, reply: AddReply<ProjectData>)
      modifies this
      ensures !isLogin || AllWhitespace(old(newProject.title)) ==> State() == old(State())
      ensures isLogin && !AllWhitespace(old(newProject.title)) && reply.AddFailed? ==>
        State() == old(State()).(requests := old(requests) + [Create(ProjectPath, old(newProject))])
      ensures isLogin && !AllWhitespace(old(newProject.title)) && reply.AddOk? ==>
        State() == old(State()).(
          requests := old(requests) + [Create(ProjectPath, old(newProject))],
          projectList := old(projectList) + [Entry(reply.id, reply.data, [])],
          newProject := EmptyProject, showAddForm := false, refetches := old(refetches) + 1)
    {
      if !isLogin || AllWhitespace(newProject.title) {
        return;
      }
      requests := requests + [Create(ProjectPath, newProject)];
      if reply.AddOk? {
        projectList := projectList + [Entry(reply.id, reply.data, [])];
        newProject := EmptyProject;
        showAddForm := false;
        refetches := refetches + 1;
      }
    }

    /** The pencil button: start editing one field from its current text. */
    method StartEdit(e: Editing)
      modifies this
      ensures State() == old(State()).(editing := Some(e))
    {
      editing := Some(e);
    }

    /** The cross button beside an edited field: leave the edit without
      sending anything. */
    method CancelEdit()
      modifies this
      ensures State() == old(State()).(editing := None)
    {
      editing := None;
    }

    /** The payload `handleUpdateField` would send: the edited project's four
      fields with the edited one replaced; `None` without an edit or without
      an entry of that id. */
    function EditPayload(): (r: Option<ProjectData>)
      reads this
      ensures r.Some? <==> editing.Some? && Find(projectList, editing.value.id).Some?
    {
      if editing.Some? && Find(projectList, editing.value.id).Some? then
        Some(WithField(Find(projectList, editing.value.id).value.data, editing.value.field, editing.value.value))
      else None
    }

    /** The `try` block of `handleUpdateField`: the PUT is sent, and an OK
      reply sets the payload on the entries with that id only, ends the edit
      and refetches. */
    method SaveEdit(id: int, payload: ProjectData, ok: bool)
      modifies this
      ensures !ok ==> State() == old(State()).(requests := old(requests) + [Update(ItemPath(ProjectPath, id), payload)])
      ensures ok ==> State() == old(State()).(
        requests := old(requests) + [Update(ItemPath(ProjectPath, id), payload)],
        projectList := SetData(old(projectList), id, payload),
        editing := None, refetches := old(refetches) + 1)
    {
      requests := requests + [Update(ItemPath(ProjectPath, id), payload)];
      if ok {
        projectList := SetData(projectList, id, payload);
        editing := None;
        refetches := refetches + 1;
      }
    }

    /** `handleUpdateField`: logged out, the edit is dropped; without an edit
      or without an entry of that id nothing is sent; otherwise the payload
      is saved. */
    method UpdateField(isLogin: bool, ok: bool)
      modifies this
      ensures !isLogin ==> State() == old(State()).(editing := None)
      ensures isLogin && old(EditPayload()).None? ==> State() == old(State())
      ensures isLogin && old(EditPayload()).Some? && !ok ==>
        State() == old(State()).(requests := old(requests) + [Update(ItemPath(ProjectPath, old(editing).value.id), old(EditPayload()).value)])
      ensures isLogin && old(EditPayload()).Some? && ok ==>
        State() == old(State()).(
          requests := old(requests) + [Update(ItemPath(ProjectPath, old(editing).value.id), old(EditPayload()).value)],
          projectList := SetData(old(projectList), old(editing).value.id, old(EditPayload()).value),
          editing := None, refetches := old(refetches) + 1)
    {
      if !isLogin {
        editing := None;
        return;
      }
      var payload := EditPayload();
      if payload.None? {
        return;
      }
      SaveEdit(editing.value.id, payload.value, ok);
    }

    /** `handleDeleteProject`: after login and confirmation, the DELETE is sent
      and an OK reply removes every entry with that id. */
    method DeleteProject(isLogin: bool, confirmed: bool, id: int, ok: bool)
      modifies this
      ensures !isLogin || !confirmed ==> State() == old(State())
      ensures isLogin && confirmed ==>
        State() == old(State()).(requests := old(requests) + [Remove(ItemPath(ProjectPath, id))],
                                 projectList := if ok then Delete(old(projectList), id) else old(projectList))
    {
      if !isLogin || !confirmed {
        return;
      }
      requests := requests + [Remove(ItemPath(ProjectPath, id))];
      if ok {
        projectList := Delete(projectList, id);
      }
    }

    /** The gallery's "add media" button for one entry. */
    method OpenAddMedia(id: int)
      modifies this
      ensures State() == old(State()).(mediaTarget := Some(id), showAddMediaModal := true)
    {
      mediaTarget := Some(id);
      showAddMediaModal := true;
    }

    /** The close and cancel buttons of the media dialog: hide it and forget the
      target entity. */
    method CloseMediaModal()
      modifies this
      ensures State() == old(State()).(showAddMediaModal := false, mediaTarget := None)
    {
      showAddMediaModal := false;
      mediaTarget := None;
    }

    /** The add button opens the add form; it is rendered only for a
      logged-in user, so without a login nothing changes. */
    method OpenAddForm(isLogin: bool)
      modifies this
      ensures State() == if isLogin then old(State()).(showAddForm := true) else old(State())
    {
      if isLogin {
        showAddForm := true;
      }
    }

    /** The close and cancel buttons of the add form hide it and keep what
      was typed. */
    method CloseAddForm()
      modifies this
      ensures State() == old(State()).(showAddForm := false)
    {
      showAddForm := false;
    }

    /** `handleMediaFileChange` for the picked file: logged out, the input is
      cleared; without a file or a target nothing happens; a file that is
      neither an image nor a video is refused and the input cleared;
      otherwise the form is posted, and an OK reply appends the new file to
      that entry's gallery only, closes the dialog, clears the input and
      refetches. A failed upload leaves the dialog and the input as they are. */
    method MediaFileChange(isLogin: bool, file: Option<FileChoice>, reply: UploadReply)
      modifies this
      ensures !isLogin ==> State() == old(State()).(fileInput := None)
      ensures isLogin && (file.None? || old(mediaTarget).None?) ==> State() == old(State()).(fileInput := file)
      ensures isLogin && file.Some? && old(mediaTarget).Some? && UploadKind(file.value.mimeType).None? ==>
        State() == old(State()).(fileInput := None)
      ensures isLogin && file.Some? && old(mediaTarget).Some? && UploadKind(file.value.mimeType).Some? ==>
        var target := old(mediaTarget).value;
        var sent := old(requests) + [PostMedia(Upload(EntityType, target, file.value.mimeType, file.value.name))];
        State() == match reply
          case UploadFailed => old(State()).(fileInput := file, requests := sent)
          case UploadOk(mediaId, link) =>
            old(State()).(requests := sent,
              projectList := AddMedia(old(projectList), target, MediaFile(mediaId, link, UploadKind(file.value.mimeType).value)),
              showAddMediaModal := false, mediaTarget := None, fileInput := None,
              refetches := old(refetches) + 1)
    {
      fileInput := file;
      if !isLogin {
        fileInput := None;
        return;
      }
      if file.None? || mediaTarget.None? {
        return;
      }
      var kind := UploadKind(file.value.mimeType);
      if kind.None? {
        fileInput := None;
        return;
      }
      SendUpload(mediaTarget.value, file.value, kind.value, reply);
    }

    /** The upload step of `handleMediaFileChange`: the form is posted for
      the target project, and an OK reply appends the new file to that project's
      gallery only, closes the dialog, clears the input and refetches. */
    method SendUpload(target: int, file: FileChoice, kind: MediaKind, reply: UploadReply)
      modifies this
      ensures var sent := old(requests) + [PostMedia(Upload(EntityType, target, file.mimeType, file.name))];
        State() == match reply
          case UploadFailed => old(State()).(requests := sent)
          case UploadOk(mediaId, link) =>
            old(State()).(requests := sent,
              projectList := AddMedia(old(projectList), target, MediaFile(mediaId, link, kind)),
              showAddMediaModal := false, mediaTarget := None, fileInput := None,
              refetches := old(refetches) + 1)
    {
      requests := requests + [PostMedia(Upload(EntityType, target, file.mimeType, file.name))];
      if reply.UploadOk? {
        projectList := AddMedia(projectList, target, MediaFile(reply.mediaId, reply.link, kind));
        showAddMediaModal := false;
        mediaTarget := None;
        fileInput := None;
        refetches := refetches + 1;
      }
    }

    /** `handleDeleteMedia`: after login and confirmation, the DELETE is sent
      and an OK reply removes the files with that media id from that entry's
      gallery only. */
    method DeleteMedia(isLogin: bool, confirmed: bool, projectId: int, mediaId: int, ok: bool)
      modifies this
      ensures !isLogin || !confirmed ==> State() == old(State())
      ensures isLogin && confirmed ==>
        State() == old(State()).(requests := old(requests) + [Remove(ItemPath(MediaPath, mediaId))],
                                 projectList := if ok then RemoveMediaFrom(old(projectList), projectId, mediaId)
                                                  else old(projectList))
    {
      if !isLogin || !confirmed {
        return;
      }
      requests := requests + [Remove(ItemPath(MediaPath, mediaId))];
      if ok {
        projectList := RemoveMediaFrom(projectList, projectId, mediaId);
      }
    }

    /** `handleFilter`: the gallery filter of one entry. */
    method SelectFilter(id: int, f: MediaFilter)
      modifies this
      ensures State() == old(State()).(filters := old(filters)[id := f])
    {
      filters := filters[id := f];
    }

    /** What the gallery of an entry shows under its filter. */
    function Gallery(e: Entry<ProjectData>): (r: seq<MediaFile>)
      reads this
      ensures FilterFor(filters, e.id).All? ==> r == e.mediaFiles
      ensures FilterFor(filters, e.id).Only? ==>
        forall m :: m in r <==> m in e.mediaFiles && m.kind == FilterFor(filters, e.id).kind
    {
      Visible(e.mediaFiles, FilterFor(filters, e.id))
    }
  }
}
