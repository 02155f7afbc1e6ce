/** The portfolio screen of the content manager: a form that creates or
    edits a project of the `portfolio_projects` table, with its
    technologies typed as one comma-separated line. */
module PortfolioManager {
  import opened Wrappers
  import opened Text
  import opened Slug
  import opened Toasts
  import opened Publishing

  /** The dialog's fields, all text. */
  datatype ProjectForm = ProjectForm(title: string, slug: string, description: string, content: string,
                                     featuredImage: string, technologies: string, clientName: string,
                                     projectUrl: string, status: string)

  const EMPTY_FORM := ProjectForm("", "", "", "", "", "", "", "", "draft")

  /** The columns `handleSubmit` writes. */
  datatype ProjectData = ProjectData(title: string, slug: string, description: Option<string>,
                                     content: Option<string>, featuredImage: Option<string>,
                                     technologies: Option<seq<string>>, clientName: Option<string>,
                                     projectUrl: Option<string>, status: string)

  /** A stored project: the written columns and its place in the list. */
  datatype Project = Project(data: ProjectData, displayOrder: int)

  /** `technologies ? technologies.split(',').map(t => t.trim()) : null`. */
  function Technologies(text: string): (r: Option<seq<string>>)
    ensures r.None? <==> text == ""
  {
    if text == "" then None else Some(TrimAll(Split(text, ',')))
  }

  /** A typed line gives one technology more than it has commas, each
      trimmed and free of commas. */
  lemma TechnologiesShape(text: string)
    requires text != ""
    ensures var t := Technologies(text).value;
      |t| == Occurrences(text, ',') + 1
      && forall k :: 0 <= k < |t| ==> IsTrimmed(t[k]) && ',' !in t[k]
  {
    SplitCount(text, ',');
    SplitPiecesFree(text, ',');
    var t := Technologies(text).value;
    forall k | 0 <= k < |t|
      ensures IsTrimmed(t[k]) && ',' !in t[k]
    {
      TrimResult(Split(text, ',')[k]);
      var p := Split(text, ',')[k];
      assert ',' !in p;
      assert t[k] == TrimEnd(TrimStart(p));
      assert ',' !in TrimStart(p) by {
        assert forall c :: c in TrimStart(p) ==> c in p;
      }
    }
  }

  /** `project.technologies?.join(', ') || ''`. */
  function TechnologiesText(t: Option<seq<string>>): string {
    if t.None? then "" else Join(t.value, ", ")
  }

  /** Each entry prefixed with a space. */
  function Spaced(parts: seq<string>): (r: seq<string>)
    ensures |r| == |parts| && forall k :: 0 <= k < |r| ==> r[k] == " " + parts[k]
  {
    seq(|parts|, k requires 0 <= k < |parts| => " " + parts[k])
  }

  lemma {:induction false} JoinSpaced(parts: seq<string>)
    requires |parts| >= 1
    ensures Join(Spaced(parts), ",") == " " + Join(parts, ", ")
    decreases |parts|
  {
    if |parts| > 1 {
      var sp := Spaced(parts);
      var tail := Join(parts[1..], ", ");
      JoinSpaced(parts[1..]);
      assert sp[1..] == Spaced(parts[1..]);
      assert Join(sp, ",") == sp[0] + "," + Join(sp[1..], ",");
      assert Join(parts, ", ") == parts[0] + ", " + tail;
      CommaThenSpace(" " + parts[0], tail);
      assert (" " + parts[0]) + ", " + tail == " " + (parts[0] + ", " + tail);
    }
  }

  /** Joining with `", "` is joining with `","` once every entry after the
      first has a leading space. */
  lemma JoinCommaSpace(list: seq<string>)
    requires |list| >= 2
    ensures Join(list, ", ") == Join([list[0]] + Spaced(list[1..]), ",")
  {
    var p := [list[0]] + Spaced(list[1..]);
    var tail := Join(list[1..], ", ");
    JoinSpaced(list[1..]);
    assert p[1..] == Spaced(list[1..]);
    assert Join(p, ",") == p[0] + "," + Join(p[1..], ",");
    assert Join(list, ", ") == list[0] + ", " + tail;
    CommaThenSpace(list[0], tail);
  }

  lemma CommaThenSpace(a: string, t: string)
    ensures a + "," + (" " + t) == a + ", " + t
  {
    assert "," + " " == ", ";
    assert a + "," + (" " + t) == a + ("," + " ") + t;
  }

  /** Technologies the edit line writes back unchanged: at least one, not
      just one empty name, each trimmed and free of commas. */
  predicate RoundTrips(list: seq<string>) {
    list != [] && list != [""] && forall k :: 0 <= k < |list| ==> IsTrimmed(list[k]) && ',' !in list[k]
  }

  /** The split pieces of a joined list of two or more, once trimmed,
      are the list. */
  lemma TrimSpacedPieces(list: seq<string>)
    requires |list| >= 2 && forall k :: 0 <= k < |list| ==> IsTrimmed(list[k])
    ensures TrimAll([list[0]] + Spaced(list[1..])) == list
  {
    var p := [list[0]] + Spaced(list[1..]);
    forall k | 0 <= k < |p|
      ensures Trim(p[k]) == list[k]
    {
      if k == 0 {
        TrimOfTrimmed(list[0]);
      } else {
        assert p[k] == " " + list[k];
        TrimPadded(" ", list[k]);
      }
    }
  }

  /** The edit line of two or more technologies parses back to them. */
  lemma TechnologiesRoundTripMany(list: seq<string>)
    requires RoundTrips(list) && |list| >= 2
    ensures Technologies(TechnologiesText(Some(list))) == Some(list)
  {
    var p := [list[0]] + Spaced(list[1..]);
    JoinCommaSpace(list);
    forall k | 0 <= k < |p|
      ensures ',' !in p[k]
    {
      if k > 0 {
        assert p[k] == " " + list[k];
      }
    }
    SplitJoin(p, ',');
    TrimSpacedPieces(list);
    assert |TechnologiesText(Some(list))| >= 2 by {
      assert TechnologiesText(Some(list)) == list[0] + ", " + Join(list[1..], ", ");
    }
  }

  /** The edit line of such technologies parses back to them. */
  lemma TechnologiesRoundTrip(list: seq<string>)
    requires RoundTrips(list)
    ensures Technologies(TechnologiesText(Some(list))) == Some(list)
  {
    if |list| == 1 {
      SplitNoSeparator(list[0], ',');
      TrimOfTrimmed(list[0]);
      assert TrimAll([list[0]]) == list;
    } else {
      TechnologiesRoundTripMany(list);
    }
  }

  /** No technologies, or an empty list, come back as null. */
  lemma NoTechnologiesToNull()
    ensures Technologies(TechnologiesText(None)) == None
    ensures Technologies(TechnologiesText(Some([]))) == None
  {
  }

  /** `projectData` of `handleSubmit`: empty optional texts become null, the
      slug is filled in from the title when left empty. */
  function ProjectDataOf(form: ProjectForm): (d: ProjectData)
    ensures d.slug == SavedSlug(form.slug, form.title)
    ensures d.title == form.title && d.status == form.status
    ensures d.technologies == Technologies(form.technologies)
    ensures d.description == OrNull(form.description) && d.content == OrNull(form.content)
            && d.featuredImage == OrNull(form.featuredImage) && d.clientName == OrNull(form.clientName)
            && d.projectUrl == OrNull(form.projectUrl)
  {
    ProjectData(form.title, SavedSlug(form.slug, form.title), OrNull(form.description), OrNull(form.content),
                OrNull(form.featuredImage), Technologies(form.technologies), OrNull(form.clientName),
                OrNull(form.projectUrl), form.status)
  }

  /** `handleEdit`: the form filled from a project, nulls as empty texts. */
  function EditForm(d: ProjectData): ProjectForm {
    ProjectForm(d.title, d.slug, d.description.GetOr(""), d.content.GetOr(""), d.featuredImage.GetOr(""),
                TechnologiesText(d.technologies), d.clientName.GetOr(""), d.projectUrl.GetOr(""), d.status)
  }

  /** A project whose columns the edit form can hold: a slug, no optional
      text stored as an empty string, technologies null or round-tripping. */
  predicate Editable(d: ProjectData) {
    d.slug != ""
    && d.description != Some("") && d.content != Some("") && d.featuredImage != Some("")
    && d.clientName != Some("") && d.projectUrl != Some("")
    && (d.technologies.Some? ==> RoundTrips(d.technologies.value))
  }

  /** Saving an edit form left as it was writes such a project back
      unchanged. */
  lemma SaveUnchangedEdit(d: ProjectData)
    requires Editable(d)
    ensures ProjectDataOf(EditForm(d)) == d
  {
    if d.technologies.Some? {
      TechnologiesRoundTrip(d.technologies.value);
    }
  }

  /** The toasts of the screen. */
  datatype Notice = Updated | Created | SaveFailed | Deleted | DeleteFailed
                  | StatusChanged(status: string) | StatusFailed

  function NoticeToast(n: Notice): (t: Toast)
    ensures t.destructive <==> n in {SaveFailed, DeleteFailed, StatusFailed}
    ensures t.title == (if t.destructive then "Error" else "Success")
  {
    match n
    case Updated => Toast("Success", "Project updated", false)
    case Created => Toast("Success", "Project created", false)
    case SaveFailed => Toast("Error", "Failed to save project", true)
    case Deleted => Toast("Success", "Project deleted", false)
    case DeleteFailed => Toast("Error", "Failed to delete project", true)
    case StatusChanged(status) => Toast("Success", "Project " + status, false)
    case StatusFailed => Toast("Error", "Failed to update status", true)
  }

  class PortfolioScreen {
    /** The `portfolio_projects` table, by id; every successful write
        reloads the list from it. */
    var projects: map<string, Project>
    var form: ProjectForm
    var editing: Option<string>
    var dialogOpen: bool
    var toasts: seq<Notice>

    constructor (projects0: map<string, Project>)
      ensures projects == projects0 && form == EMPTY_FORM && editing == None && !dialogOpen && toasts == []
    {
      projects, form, editing, dialogOpen, toasts := projects0, EMPTY_FORM, None, false, [];
    }

    /** `resetForm`. */
    method ResetForm()
      modifies this`form, this`editing
      ensures form == EMPTY_FORM && editing == None
    {
      form, editing := EMPTY_FORM, None;
    }

    /** `handleEdit` of the project with id `id`. */
    method HandleEdit(id: string, p: Project)
      modifies this`form, this`editing, this`dialogOpen
      ensures form == EditForm(p.data) && editing == Some(id) && dialogOpen
    {
      form, editing, dialogOpen := EditForm(p.data), Some(id), true;
    }

    /** The state after saving `data` from the state `projects0`,
        `form0`, `editing0`, `dialogOpen0`, `toasts0`: an update of the
        written columns of the project being edited, its place kept, or an
        insert under the id the store assigns (failing if taken) placed
        after the projects there are. On success the dialog closes and the
        form is reset; on failure only an error toast is added. */
    predicate Saved(projects0: map<string, Project>, form0: ProjectForm, editing0: Option<string>,
                    dialogOpen0: bool, toasts0: seq<Notice>, data: ProjectData, newId: string, fails: bool)
      reads this
    {
      if fails || (editing0.None? && newId in projects0) then
        projects == projects0 && form == form0 && editing == editing0
        && dialogOpen == dialogOpen0 && toasts == toasts0 + [SaveFailed]
      else
        form == EMPTY_FORM && editing == None && !dialogOpen
        && (editing0.Some? ==>
              toasts == toasts0 + [Updated]
              && projects == if editing0.value in projects0
                             then projects0[editing0.value := projects0[editing0.value].(data := data)]
                             else projects0)
        && (editing0.None? ==>
              toasts == toasts0 + [Created] && projects == projects0[newId := Project(data, |projects0|)])
    }

    /** `handleSubmit`, writing the form's `projectData`. */
    method HandleSubmit(newId: string, fails: bool)
      modifies this
      ensures Saved(old(projects), old(form), old(editing), old(dialogOpen), old(toasts),
                    ProjectDataOf(old(form)), newId, fails)
    {
      Save(ProjectDataOf(form), newId, fails);
    }

    /** The write of `handleSubmit` and what follows it. */
    method Save(data: ProjectData, newId: string, fails: bool)
      modifies this
      ensures Saved(old(projects), old(form), old(editing), old(dialogOpen), old(toasts), data, newId, fails)
    {
      if fails || (editing.None? && newId in projects) {
        toasts := toasts + [SaveFailed];
        return;
      }
      if editing.Some? {
        if editing.value in projects {
          projects := projects[editing.value := projects[editing.value].(data := data)];
        }
        toasts := toasts + [Updated];
      } else {
        projects := projects[newId := Project(data, |projects|)];
        toasts := toasts + [Created];
      }
      dialogOpen := false;
      form, editing := EMPTY_FORM, None;
    }

    /** `handleDelete`, after the confirmation dialog's answer. */
    method HandleDelete(id: string, confirmed: bool, fails: bool)
      modifies this`projects, this`toasts
      ensures !confirmed ==> projects == old(projects) && toasts == old(toasts)
      ensures confirmed && fails ==> projects == old(projects) && toasts == old(toasts) + [DeleteFailed]
      ensures confirmed && !fails ==> projects == old(projects) - {id} && toasts == old(toasts) + [Deleted]
    {
      if !confirmed {
        return;
      }
      if fails {
        toasts := toasts + [DeleteFailed];
      } else {
        projects := projects - {id};
        toasts := toasts + [Deleted];
      }
    }

    /** `toggleStatus` of the listed project `p` with id `id`: only the
        status is written, computed from the listed project. */
    method ToggleStatus(id: string, p: Project, fails: bool)
      modifies this`projects, this`toasts
      ensures fails ==> projects == old(projects) && toasts == old(toasts) + [StatusFailed]
      ensures !fails ==> toasts == old(toasts) + [StatusChanged(ToggledStatus(p.data.status))]
      ensures !fails && id in old(projects) ==>
        projects == old(projects)[id := old(projects)[id].(data := old(projects)[id].data.(status := ToggledStatus(p.data.status)))]
      ensures !fails && id !in old(projects) ==> projects == old(projects)
    {
      if fails {
        toasts := toasts + [StatusFailed];
        return;
      }
      var status := ToggledStatus(p.data.status);
      if id in projects {
        projects := projects[id := projects[id].(data := projects[id].data.(status := status))];
      }
      toasts := toasts + [StatusChanged(status)];
    }
  }
}
