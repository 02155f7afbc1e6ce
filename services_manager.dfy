/** The services screen of the content manager: a form that creates or
    edits a row of the `services` table, with its features typed one per
    line, and the active switch. */
module ServicesManager {
  import opened Wrappers
  import opened Text
  import opened Toasts

  /** The dialog's fields; `priceFrom` is the typed price. */
  datatype ServiceForm = ServiceForm(title: string, description: string, icon: string, features: string,
                                     priceFrom: string, isActive: bool)

  /** `resetForm`'s form: everything empty, the service active. */
  const EMPTY_FORM := ServiceForm("", "", "", "", "", true)

  /** The `features` column, which holds any JSON value. */
  datatype Features = NullFeatures | FeatureArray(items: seq<string>) | OtherFeatures

  /** The columns `handleSubmit` writes; the price is kept as the text
      `parseFloat` reads. */
  datatype ServiceData = ServiceData(title: string, description: Option<string>, icon: Option<string>,
                                     features: Features, priceFrom: Option<string>, isActive: bool)

  /** A stored service: the written columns and its place in the list. */
  datatype Service = Service(data: ServiceData, displayOrder: int)

  /** `.filter(Boolean)` on strings: the non-empty ones, in order. */
  function NonEmpty(xs: seq<string>): (r: seq<string>)
    ensures forall x :: x in r <==> x in xs && x != ""
    ensures |r| <= |xs|
    decreases |xs|
  {
    if xs == [] then []
    else
      var rest := NonEmpty(xs[1..]);
      assert forall x :: x in xs <==> x == xs[0] || x in xs[1..];
      if xs[0] == "" then rest else [xs[0]] + rest
  }

  lemma {:induction false} NonEmptyKeepsAll(xs: seq<string>)
    requires forall k :: 0 <= k < |xs| ==> xs[k] != ""
    ensures NonEmpty(xs) == xs
    decreases |xs|
  {
    if xs != [] {
      NonEmptyKeepsAll(xs[1..]);
      assert [xs[0]] + xs[1..] == xs;
    }
  }

  /** `features ? features.split('\n').map(f => f.trim()).filter(Boolean)
      : null`. */
  function ParseFeatures(text: string): (r: Option<seq<string>>)
    ensures r.None? <==> text == ""
  {
    if text == "" then None else Some(NonEmpty(TrimAll(Split(text, '\n'))))
  }

  /** The parsed features are the trimmed lines with blank ones dropped:
      none is empty, none has surrounding spaces or a line break. */
  lemma ParseFeaturesShape(text: string)
    requires text != ""
    ensures var f := ParseFeatures(text).value;
      forall k :: 0 <= k < |f| ==> f[k] != "" && IsTrimmed(f[k]) && '\n' !in f[k]
  {
    var lines := Split(text, '\n');
    SplitPiecesFree(text, '\n');
    var f := ParseFeatures(text).value;
    forall k | 0 <= k < |f|
      ensures f[k] != "" && IsTrimmed(f[k]) && '\n' !in f[k]
    {
      assert f[k] in TrimAll(lines);
      var i :| 0 <= i < |lines| && TrimAll(lines)[i] == f[k];
      TrimResult(lines[i]);
      assert '\n' !in lines[i];
      assert forall c :: c in TrimStart(lines[i]) ==> c in lines[i];
    }
  }

  /** A line, once trimmed, is a feature exactly when it is not blank. */
  lemma ParseFeaturesKeepsLines(text: string, line: string)
    requires text != "" && line in Split(text, '\n')
    ensures Trim(line) in ParseFeatures(text).value <==> Trim(line) != ""
  {
    var lines := Split(text, '\n');
    var i :| 0 <= i < |lines| && lines[i] == line;
    assert TrimAll(lines)[i] == Trim(line);
  }

  /** `handleEdit`'s features text: an array joined with line breaks,
      anything else empty. */
  function FeaturesText(f: Features): string {
    if f.FeatureArray? then Join(f.items, "\n") else ""
  }

  /** The column `handleSubmit` writes for the typed features: null, or
      the array. */
  function StoredFeatures(text: string): (f: Features)
    ensures f == NullFeatures <==> text == ""
    ensures f != OtherFeatures
  {
    match ParseFeatures(text)
    case None => NullFeatures
    case Some(xs) => FeatureArray(xs)
  }

  /** Features the edit text writes back unchanged: at least one, each
      non-empty, trimmed and on one line. */
  predicate RoundTrips(xs: seq<string>) {
    xs != [] && forall k :: 0 <= k < |xs| ==> xs[k] != "" && IsTrimmed(xs[k]) && '\n' !in xs[k]
  }

  /** The edit text of such features parses back to them. */
  lemma FeaturesRoundTrip(xs: seq<string>)
    requires RoundTrips(xs)
    ensures StoredFeatures(FeaturesText(FeatureArray(xs))) == FeatureArray(xs)
  {
    SplitJoin(xs, '\n');
    TrimAllTrimmed(xs);
    NonEmptyKeepsAll(xs);
    JoinStartsWithFirst(xs, "\n");
  }

  /** Features that are not an array edit as an empty text, and are saved
      back as null, as is an empty array. */
  lemma OtherFeaturesToNull()
    ensures StoredFeatures(FeaturesText(OtherFeatures)) == NullFeatures
    ensures StoredFeatures(FeaturesText(NullFeatures)) == NullFeatures
    ensures StoredFeatures(FeaturesText(FeatureArray([]))) == NullFeatures
  {
  }

  /** `serviceData` of `handleSubmit`: empty optional texts become null. */
  function ServiceDataOf(form: ServiceForm): (d: ServiceData)
    ensures d.title == form.title && d.isActive == form.isActive
    ensures d.features == StoredFeatures(form.features)
    ensures d.description == OrNull(form.description) && d.icon == OrNull(form.icon)
            && d.priceFrom == OrNull(form.priceFrom)
  {
    ServiceData(form.title, OrNull(form.description), OrNull(form.icon), StoredFeatures(form.features),
                OrNull(form.priceFrom), form.isActive)
  }

  /** `handleEdit`: the form filled from a service, nulls as empty texts. */
  function EditForm(d: ServiceData): ServiceForm {
    ServiceForm(d.title, d.description.GetOr(""), d.icon.GetOr(""), FeaturesText(d.features),
                d.priceFrom.GetOr(""), d.isActive)
  }

  /** A service whose columns the edit form can hold: no optional text
      stored as an empty string, features null or round-tripping. */
  predicate Editable(d: ServiceData) {
    d.description != Some("") && d.icon != Some("") && d.priceFrom != Some("")
    && (d.features.NullFeatures? || (d.features.FeatureArray? && RoundTrips(d.features.items)))
  }

  /** Saving an edit form left as it was writes such a service back
      unchanged. */
  lemma SaveUnchangedEdit(d: ServiceData)
    requires Editable(d)
    ensures ServiceDataOf(EditForm(d)) == d
  {
    if d.features.FeatureArray? {
      FeaturesRoundTrip(d.features.items);
    }
  }

  /** The toasts of the screen. */
  datatype Notice = Updated | Created | SaveFailed | Deleted | DeleteFailed
                  | ActiveChanged(active: bool) | StatusFailed

  function NoticeToast(n: Notice): (t: Toast)
    ensures t.destructive <==> n in {SaveFailed, DeleteFailed, StatusFailed}
    ensures t.title == (if t.destructive then "Error" else "Success")
  {
    match n
    case Updated => Toast("Success", "Service updated", false)
    case Created => Toast("Success", "Service created", false)
    case SaveFailed => Toast("Error", "Failed to save service", true)
    case Deleted => Toast("Success", "Service deleted", false)
    case DeleteFailed => Toast("Error", "Failed to delete service", true)
    case ActiveChanged(active) => Toast("Success", if active then "Service activated" else "Service deactivated", false)
    case StatusFailed => Toast("Error", "Failed to update status", true)
  }

  class ServicesScreen {
    /** The `services` table, by id; every successful write reloads the
        list from it. */
    var services: map<string, Service>
    var form: ServiceForm
    var editing: Option<string>
    var dialogOpen: bool
    var toasts: seq<Notice>

    constructor (services0: map<string, Service>)
      ensures services == services0 && form == EMPTY_FORM && editing == None && !dialogOpen && toasts == []
    {
      services, form, editing, dialogOpen, toasts := services0, EMPTY_FORM, None, false, [];
    }

    /** `resetForm`. */
    method ResetForm()
      modifies this`form, this`editing
      ensures form == EMPTY_FORM && form.isActive && editing == None
    {
      form, editing := EMPTY_FORM, None;
    }

    /** `handleEdit` of the service with id `id`. */
    method HandleEdit(id: string, s: Service)
      modifies this`form, this`editing, this`dialogOpen
      ensures form == EditForm(s.data) && editing == Some(id) && dialogOpen
    {
      form, editing, dialogOpen := EditForm(s.data), Some(id), true;
    }

    /** The state after saving `data` from the state `services0`, `form0`,
        `editing0`, `dialogOpen0`, `toasts0`: an update of the written
        columns of the service being edited, its place kept, or an insert
        under the id the store assigns (failing if taken) placed after the
        services there are. On success the dialog closes and the form is
        reset; on failure only an error toast is added. */
    predicate Saved(services0: map<string, Service>, form0: ServiceForm, editing0: Option<string>,
                    dialogOpen0: bool, toasts0: seq<Notice>, data: ServiceData, newId: string, fails: bool)
      reads this
    {
      if fails || (editing0.None? && newId in services0) then
        services == services0 && form == form0 && editing == editing0
        && dialogOpen == dialogOpen0 && toasts == toasts0 + [SaveFailed]
      else
        form == EMPTY_FORM && editing == None && !dialogOpen
        && (editing0.Some? ==>
              toasts == toasts0 + [Updated]
              && services == if editing0.value in services0
                             then services0[editing0.value := services0[editing0.value].(data := data)]
                             else services0)
        && (editing0.None? ==>
              toasts == toasts0 + [Created] && services == services0[newId := Service(data, |services0|)])
    }

    /** `handleSubmit`, writing the form's `serviceData`. */
    method HandleSubmit(newId: string, fails: bool)
      modifies this
      ensures Saved(old(services), old(form), old(editing), old(dialogOpen), old(toasts),
                    ServiceDataOf(old(form)), newId, fails)
    {
      Save(ServiceDataOf(form), newId, fails);
    }

    /** The write of `handleSubmit` and what follows it. */
    method Save(data: ServiceData, newId: string, fails: bool)
      modifies this
      ensures Saved(old(services), old(form), old(editing), old(dialogOpen), old(toasts), data, newId, fails)
    {
      if fails || (editing.None? && newId in services) {
        toasts := toasts + [SaveFailed];
        return;
      }
      if editing.Some? {
        if editing.value in services {
          services := services[editing.value := services[editing.value].(data := data)];
        }
        toasts := toasts + [Updated];
      } else {
        services := services[newId := Service(data, |services|)];
        toasts := toasts + [Created];
      }
      dialogOpen := false;
      form, editing := EMPTY_FORM, None;
    }

    /** `handleDelete`, after the confirmation dialog's answer. */
    method HandleDelete(id: string, confirmed: bool, fails: bool)
      modifies this`services, this`toasts
      ensures !confirmed ==> services == old(services) && toasts == old(toasts)
      ensures confirmed && fails ==> services == old(services) && toasts == old(toasts) + [DeleteFailed]
      ensures confirmed && !fails ==> services == old(services) - {id} && toasts == old(toasts) + [Deleted]
    {
      if !confirmed {
        return;
      }
      if fails {
        toasts := toasts + [DeleteFailed];
      } else {
        services := services - {id};
        toasts := toasts + [Deleted];
      }
    }

    /** `toggleActive` of the listed service `s` with id `id`: the stored
        flag becomes the negation of the listed one. */
    method ToggleActive(id: string, s: Service, fails: bool)
      modifies this`services, this`toasts
      ensures fails ==> services == old(services) && toasts == old(toasts) + [StatusFailed]
      ensures !fails ==> toasts == old(toasts) + [ActiveChanged(!s.data.isActive)]
      ensures !fails && id in old(services) ==>
        services == old(services)[id := old(services)[id].(data := old(services)[id].data.(isActive := !s.data.isActive))]
      ensures !fails && id !in old(services) ==> services == old(services)
    {
      if fails {
        toasts := toasts + [StatusFailed];
        return;
      }
      if id in services {
        services := services[id := services[id].(data := services[id].data.(isActive := !s.data.isActive))];
      }
      toasts := toasts + [ActiveChanged(!s.data.isActive)];
    }
  }
}
