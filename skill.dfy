/** The skills section of the portfolio (`Skill`): the list of skills with
    their levels and galleries, and the owner's add, edit, delete and media
    handlers. Replies from the backend and the login state are parameters;
    a refetch is counted in `refetches` and its result applied by `Load`. */
module Skill {
  import opened Common
  import opened Media
  import opened Entries

  const SkillPath: string := "/skill"
  const EntityType: string := "SKILL"

  /** A skill's own fields. `level` is `None` when it is `NaN` (an edit whose
      text has no digits, or a level typed as something other than a number). */
  datatype SkillData = SkillData(name: string, level: Option<int>)

  const EmptySkill: SkillData := SkillData("", Some(0))

  /** `getProgressColor(level)`: green from 85, amber from 70, red below (and
      for `NaN`, which fails both comparisons). */
  function ProgressColor(level: Option<int>): (c: string)
    ensures c == "bg-success" <==> level.Some? && level.value >= 85
    ensures c == "bg-warning" <==> level.Some? && 70 <= level.value < 85
    ensures c == "bg-danger" <==> level.None? || level.value < 70
  {
    if level.Some? && level.value >= 85 then "bg-success"
    else if level.Some? && level.value >= 70 then "bg-warning"
    else "bg-danger"
  }

  /** `Math.min(100, Math.max(0, n))` on the typed level; `NaN` stays `NaN`. */
  function ClampLevel(n: Option<int>): (r: Option<int>)
    ensures r.None? <==> n.None?
    ensures r.Some? ==> 0 <= r.value <= 100
    ensures r.Some? && 0 <= n.value <= 100 ==> r == n
    ensures r.Some? && n.value < 0 ==> r.value == 0
    ensures r.Some? && n.value > 100 ==> r.value == 100
  {
    if n.None? then None
    else if n.value < 0 then Some(0)
    else if n.value > 100 then Some(100)
    else n
  }

  /** Clamping a clamped level changes nothing. */
  lemma ClampLevelIdempotent(n: Option<int>)
    ensures ClampLevel(ClampLevel(n)) == ClampLevel(n)
  {
  }

  /** `updatedPayload`: the edited field takes the typed text (the level
      parsed with `parseInt`), the other field keeps the skill's value. */
  function UpdatePayload(current: SkillData, field: string, value: string): SkillData {
    SkillData(if field == "name" then value else current.name,
              if field == "level" then ParseInt(value) else current.level)
  }

  /** An edit changes only its own field: an unknown field name changes
      nothing, a second edit of the same field overrides the first, and
      editing the level starting from its printed value (`String(level)`)
      and saving it as is gives back the skill. */
  lemma UpdatePayloadIsFieldwise(current: SkillData, field: string, value: string, value2: string)
    ensures field != "name" && field != "level" ==> UpdatePayload(current, field, value) == current
    ensures UpdatePayload(UpdatePayload(current, field, value), field, value2) == UpdatePayload(current, field, value2)
    ensures current.level.Some? ==> UpdatePayload(current, "level", IntToString(current.level.value)) == current
    ensures UpdatePayload(current, "name", current.name) == current
  {
    if current.level.Some? {
      ParseIntOfIntToString(current.level.value);
    }
  }

  /** Every field of the component's state. */
  datatype SkillState = SkillState(
    skills: seq<Entry<SkillData>>,
    filters: map<int, MediaFilter>,
    editing: Option<Editing>,
    showAddForm: bool,
    newSkill: SkillData,
    showAddMediaModal: bool,
    mediaTarget: Option<int>,
    fileInput: Option<FileChoice>,
    requests: seq<Request<SkillData>>,
    refetches: nat)

  class SkillManager {
    var skills: seq<Entry<SkillData>>
    var filters: map<int, MediaFilter>
    var editing: Option<Editing>
    var showAddForm: bool
    var newSkill: SkillData
    var showAddMediaModal: bool
    /** `currentEntityForMedia`: the skill the media dialog uploads to. */
    var mediaTarget: Option<int>
    /** The file input's selection (`None` once cleared). */
    var fileInput: Option<FileChoice>
    var requests: seq<Request<SkillData>>
    var refetches: nat

    function State(): SkillState
      reads this
    {
      SkillState(skills, filters, editing, showAddForm, newSkill, showAddMediaModal,
                 mediaTarget, fileInput, requests, refetches)
    }

    constructor ()
      ensures State() == SkillState([], map[], None, false, EmptySkill, false, None, None, [], 0)
    {
      skills, filters, editing, showAddForm, newSkill := [], map[], None, false, EmptySkill;
      showAddMediaModal, mediaTarget, fileInput, requests, refetches := false, None, None, [], 0;
    }

    /** `fetchSkills` with the reply to the list request: no request without
      a user id; otherwise the listed skills with their galleries, or none. */
    method Load(userId: string, reply: ListReply<SkillData>)
      modifies this
      ensures userId == "" ==> State() == old(State())
      ensures userId != "" ==> State() == old(State()).(skills := Loaded(reply, false))
    {
      if userId != "" {
        skills := Loaded(reply, false);
      }
    }

    /** The name input of the add form. */
    method TypeName(name: string)
      modifies this
      ensures State() == old(State()).(newSkill := old(newSkill).(name := name))
    {
      newSkill := newSkill.(name := name);
    }

    /** The level input of the add form, clamped to [0, 100]. */
    method TypeLevel(typed: Option<int>)
      modifies this
      ensures State() == old(State()).(newSkill := old(newSkill).(level := ClampLevel(typed)))
      ensures newSkill.level.Some? ==> 0 <= newSkill.level.value <= 100
    {
      newSkill := newSkill.(level := ClampLevel(typed));
    }

    /** `handleAddSkill`: refused, with nothing sent, when logged out or when
      the name is blank (it trims to "", see `TrimEmptyIffBlank`); otherwise the name and level are posted,
      and an OK reply appends the created skill with an empty gallery,
      resets and closes the form, and refetches. */
    method AddSkill(isLogin: bool, reply: AddReply<SkillData>)
      modifies this
      ensures !isLogin || AllWhitespace(old(newSkill.name)) ==> State() == old(State())
      ensures isLogin && !AllWhitespace(old(newSkill.name)) && reply.AddFailed? ==>
        State() == old(State()).(requests := old(requests) + [Create(SkillPath, old(newSkill))])
      ensures isLogin && !AllWhitespace(old(newSkill.name)) && reply.AddOk? ==>
        State() == old(State()).(
          requests := old(requests) + [Create(SkillPath, old(newSkill))],
          skills := old(skills) + [Entry(reply.id, reply.data, [])],
          newSkill := EmptySkill, showAddForm := false, refetches := old(refetches) + 1)
    {
      if !isLogin || AllWhitespace(newSkill.name) {
        return;
      }
      requests := requests + [Create(SkillPath, newSkill)];
      if reply.AddOk? {
        skills := skills + [Entry(reply.id, reply.data, [])];
        newSkill := EmptySkill;
        showAddForm := false;
        refetches := refetches + 1;
      }
    }

    /** The pencil button: start editing one field from its current text. */
    method StartEdit(e: Editing)
      modifies this
      ensures State() == old(State()).(editing := Some(e))
    {
      editing := Some(e);
    }

    /** The cross button beside an edited field: leave the edit without
      sending anything. */
    method CancelEdit()
      modifies this
      ensures State() == old(State()).(editing := None)
    {
      editing := None;
    }

    /** The payload `handleUpdateField` would send: the edited skill's name
      and level with the edited one replaced; `None` without an edit or
      without a skill of that id. */
    function EditPayload(): (r: Option<SkillData>)
      reads this
      ensures r.Some? <==> editing.Some? && Find(skills, editing.value.id).Some?
    {
      if editing.Some? && Find(skills, editing.value.id).Some? then
        Some(UpdatePayload(Find(skills, editing.value.id).value.data, editing.value.field, editing.value.value))
      else None
    }

    /** The `try` block of `handleUpdateField`: the PUT is sent, and an OK
      reply sets the payload on the skills with that id only, ends the edit
      and refetches. */
    method SaveEdit(id: int, payload: SkillData, ok: bool)
      modifies this
      ensures !ok ==> State() == old(State()).(requests := old(requests) + [Update(ItemPath(SkillPath, id), payload)])
      ensures ok ==> State() == old(State()).(
        requests := old(requests) + [Update(ItemPath(SkillPath, id), payload)],
        skills := SetData(old(skills), id, payload),
        editing := None, refetches := old(refetches) + 1)
    {
      requests := requests + [Update(ItemPath(SkillPath, id), payload)];
      if ok {
        skills := SetData(skills, id, payload);
        editing := None;
        refetches := refetches + 1;
      }
    }

    /** `handleUpdateField`: logged out, the edit is dropped; without an edit
      or without a skill of that id nothing is sent; otherwise the payload
      is saved. */
    method UpdateField(isLogin: bool, ok: bool)
      modifies this
      ensures !isLogin ==> State() == old(State()).(editing := None)
      ensures isLogin && old(EditPayload()).None? ==> State() == old(State())
      ensures isLogin && old(EditPayload()).Some? && !ok ==>
        State() == old(State()).(requests := old(requests) + [Update(ItemPath(SkillPath, old(editing).value.id), old(EditPayload()).value)])
      ensures isLogin && old(EditPayload()).Some? && ok ==>
        State() == old(State()).(
          requests := old(requests) + [Update(ItemPath(SkillPath, old(editing).value.id), old(EditPayload()).value)],
          skills := SetData(old(skills), old(editing).value.id, old(EditPayload()).value),
          editing := None, refetches := old(refetches) + 1)
    {
      if !isLogin {
        editing := None;
        return;
      }
      var payload := EditPayload();
      if payload.None? {
        return;
      }
      SaveEdit(editing.value.id, payload.value, ok);
    }

    /** `handleDeleteSkill`: after login and confirmation, the DELETE is sent
      and an OK reply removes every skill with that id. */
    method DeleteSkill(isLogin: bool, confirmed: bool, id: int, ok: bool)
      modifies this
      ensures !isLogin || !confirmed ==> State() == old(State())
      ensures isLogin && confirmed ==>
        State() == old(State()).(requests := old(requests) + [Remove(ItemPath(SkillPath, id))],
                                 skills := if ok then Delete(old(skills), id) else old(skills))
    {
      if !isLogin || !confirmed {
        return;
      }
      requests := requests + [Remove(ItemPath(SkillPath, id))];
      if ok {
        skills := Delete(skills, id);
      }
    }

    /** The gallery's "add media" button for one skill. */
    method OpenAddMedia(id: int)
      modifies this
      ensures State() == old(State()).(mediaTarget := Some(id), showAddMediaModal := true)
    {
      mediaTarget := Some(id);
      showAddMediaModal := true;
    }

    /** The close and cancel buttons of the media dialog: hide it and forget the
      target entity. */
    method CloseMediaModal()
      modifies this
      ensures State() == old(State()).(showAddMediaModal := false, mediaTarget := None)
    {
      showAddMediaModal := false;
      mediaTarget := None;
    }

    /** The add button opens the add form; it is rendered only for a
      logged-in user, so without a login nothing changes. */
    method OpenAddForm(isLogin: bool)
      modifies this
      ensures State() == if isLogin then old(State()).(showAddForm := true) else old(State())
    {
      if isLogin {
        showAddForm := true;
      }
    }

    /** The close and cancel buttons of the add form hide it and keep what
      was typed. */
    method CloseAddForm()
      modifies this
      ensures State() == old(State()).(showAddForm := false)
    {
      showAddForm := false;
    }

    /** `handleMediaFileChange` for the picked file: logged out, the input is
      cleared; without a file or a target nothing happens; a file that is
      neither an image nor a video is refused and the input cleared;
      otherwise the form is posted, and an OK reply appends the new file to
      that skill's gallery only, closes the dialog, clears the input and
      refetches. A failed upload leaves the dialog and the input as they are. */
    method MediaFileChange(isLogin: bool, file: Option<FileChoice>, reply: UploadReply)
      modifies this
      ensures !isLogin ==> State() == old(State()).(fileInput := None)
      ensures isLogin && (file.None? || old(mediaTarget).None?) ==> State() == old(State()).(fileInput := file)
      ensures isLogin && file.Some? && old(mediaTarget).Some? && UploadKind(file.value.mimeType).None? ==>
        State() == old(State()).(fileInput := None)
      ensures isLogin && file.Some? && old(mediaTarget).Some? && UploadKind(file.value.mimeType).Some? ==>
        var target := old(mediaTarget).value;
        var sent := old(requests) + [PostMedia(Upload(EntityType, target, file.value.mimeType, file.value.name))];
        State() == match reply
          case UploadFailed => old(State()).(fileInput := file, requests := sent)
          case UploadOk(mediaId, link) =>
            old(State()).(requests := sent,
              skills := AddMedia(old(skills), target, MediaFile(mediaId, link, UploadKind(file.value.mimeType).value)),
              showAddMediaModal := false, mediaTarget := None, fileInput := None,
              refetches := old(refetches) + 1)
    {
      fileInput := file;
      if !isLogin {
        fileInput := None;
        return;
      }
      if file.None? || mediaTarget.None? {
        return;
      }
      var kind := UploadKind(file.value.mimeType);
      if kind.None? {
        fileInput := None;
        return;
      }
      SendUpload(mediaTarget.value, file.value, kind.value, reply);
    }

    /** The upload step of `handleMediaFileChange`: the form is posted for
      the target skill, and an OK reply appends the new file to that skill's
      gallery only, closes the dialog, clears the input and refetches. */
    method SendUpload(target: int, file: FileChoice, kind: MediaKind, reply: UploadReply)
      modifies this
      ensures var sent := old(requests) + [PostMedia(Upload(EntityType, target, file.mimeType, file.name))];
        State() == match reply
          case UploadFailed => old(State()).(requests := sent)
          case UploadOk(mediaId, link) =>
            old(State()).(requests := sent,
              skills := AddMedia(old(skills), target, MediaFile(mediaId, link, kind)),
              showAddMediaModal := false, mediaTarget := None, fileInput := None,
              refetches := old(refetches) + 1)
    {
      requests := requests + [PostMedia(Upload(EntityType, target, file.mimeType, file.name))];
      if reply.UploadOk? {
        skills := AddMedia(skills, target, MediaFile(reply.mediaId, reply.link, kind));
        showAddMediaModal := false;
        mediaTarget := None;
        fileInput := None;
        refetches := refetches + 1;
      }
    }

    /** `handleDeleteMedia`: after login and confirmation, the DELETE is sent
      and an OK reply removes the files with that media id from that skill's
      gallery only. */
    method DeleteMedia(isLogin: bool, confirmed: bool, skillId: int, mediaId: int, ok: bool)
      modifies this
      ensures !isLogin || !confirmed ==> State() == old(State())
      ensures isLogin && confirmed ==>
        State() == old(State()).(requests := old(requests) + [Remove(ItemPath(MediaPath, mediaId))],
                                 skills := if ok then RemoveMediaFrom(old(skills), skillId, mediaId) else old(skills))
    {
      if !isLogin || !confirmed {
        return;
      }
      requests := requests + [Remove(ItemPath(MediaPath, mediaId))];
      if ok {
        skills := RemoveMediaFrom(skills, skillId, mediaId);
      }
    }

    /** `handleFilter`: the gallery filter of one skill. */
    method SelectFilter(id: int, f: MediaFilter)
      modifies this
      ensures State() == old(State()).(filters := old(filters)[id := f])
    {
      filters := filters[id := f];
    }

    /** What the gallery of a skill shows under its filter. */
    function Gallery(e: Entry<SkillData>): (r: seq<MediaFile>)
      reads this
      ensures FilterFor(filters, e.id).All? ==> r == e.mediaFiles
      ensures FilterFor(filters, e.id).Only? ==>
        forall m :: m in r <==> m in e.mediaFiles && m.kind == FilterFor(filters, e.id).kind
    {
      Visible(e.mediaFiles, FilterFor(filters, e.id))
    }
  }
}
