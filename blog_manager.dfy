/** The blog screen of the content manager: a form that creates or edits a
    post of the `blog_posts` table, status toggling and deletion. */
module BlogManager {
  import opened Wrappers
  import opened Slug
  import opened Toasts
  import opened Publishing

  /** The dialog's fields, all text. */
  datatype PostForm = PostForm(title: string, slug: string, excerpt: string, content: string,
                               featuredImage: string, status: string)

  const EMPTY_FORM := PostForm("", "", "", "", "", "draft")

  /** A post as stored, without its id and timestamps. */
  datatype Post = Post(title: string, slug: string, excerpt: Option<string>, content: Option<string>,
                       featuredImage: Option<string>, status: string, publishedAt: Option<string>)

  /** A post carries a publication time exactly when it is published. */
  predicate PublishedConsistent(p: Post) {
    p.publishedAt.Some? <==> p.status == "published"
  }

  /** `postData` of `handleSubmit`, built at time `now`: the form's fields as
      they are (an empty excerpt stays empty, it is not turned into null),
      the slug filled in from the title when left empty, and a publication
      time only for a published post. */
  function PostData(form: PostForm, now: string): (p: Post)
    ensures PublishedConsistent(p) && (p.publishedAt.Some? ==> p.publishedAt.value == now)
    ensures p.slug == SavedSlug(form.slug, form.title)
    ensures p.title == form.title && p.status == form.status
    ensures p.excerpt == Some(form.excerpt) && p.content == Some(form.content)
            && p.featuredImage == Some(form.featuredImage)
  {
    Post(form.title, SavedSlug(form.slug, form.title), Some(form.excerpt), Some(form.content),
         Some(form.featuredImage), form.status, if form.status == "published" then Some(now) else None)
  }

  /** `handleEdit`: the form filled from a post, missing texts as empty. */
  function EditForm(p: Post): (f: PostForm)
    ensures f.title == p.title && f.slug == p.slug && f.status == p.status
    ensures f.excerpt == (if p.excerpt.Some? then p.excerpt.value else "")
  {
    PostForm(p.title, p.slug, p.excerpt.GetOr(""), p.content.GetOr(""), p.featuredImage.GetOr(""), p.status)
  }

  /** Saving an edit form left as it was writes the post back, with its
      publication time renewed; texts that were null come back empty. */
  lemma SaveUnchangedEdit(p: Post, now: string)
    requires p.slug != ""
    ensures var q := PostData(EditForm(p), now);
      q.title == p.title && q.slug == p.slug && q.status == p.status
      && q.excerpt == Some(p.excerpt.GetOr("")) && q.content == Some(p.content.GetOr(""))
      && q.featuredImage == Some(p.featuredImage.GetOr(""))
      && q.publishedAt == (if p.status == "published" then Some(now) else None)
  {
  }

  /** The post with status `status` and, when published, publication
      time `now`; nothing else changes. */
  function WithStatus(p: Post, status: string, now: string): (q: Post)
    ensures PublishedConsistent(q) && q.status == status
    ensures q.publishedAt.Some? ==> q.publishedAt.value == now
    ensures q.(status := p.status, publishedAt := p.publishedAt) == p
  {
    p.(status := status, publishedAt := if status == "published" then Some(now) else None)
  }

  datatype Variant = Default | Secondary | Destructive

  const VARIANTS: map<string, Variant> := map["published" := Default, "draft" := Secondary, "archived" := Destructive]

  /** `getStatusBadge`'s variant, `secondary` for a status it does not
      know. */
  function StatusBadge(status: string): (v: Variant)
    ensures v == Default <==> status == "published"
    ensures v == Destructive <==> status == "archived"
    ensures v == Secondary <==> status != "published" && status != "archived"
  {
    if status in VARIANTS then VARIANTS[status] else Secondary
  }

  /** The toasts of the screen. */
  datatype Notice = Updated | Created | SaveFailed | Deleted | DeleteFailed
                  | StatusChanged(published: bool) | StatusFailed

  function NoticeToast(n: Notice): (t: Toast)
    ensures t.destructive <==> n in {SaveFailed, DeleteFailed, StatusFailed}
    ensures t.title == (if t.destructive then "Error" else "Success")
  {
    match n
    case Updated => Toast("Success", "Blog post updated", false)
    case Created => Toast("Success", "Blog post created", false)
    case SaveFailed => Toast("Error", "Failed to save blog post", true)
    case Deleted => Toast("Success", "Blog post deleted", false)
    case DeleteFailed => Toast("Error", "Failed to delete blog post", true)
    case StatusChanged(published) => Toast("Success", if published then "Post published" else "Post unpublished", false)
    case StatusFailed => Toast("Error", "Failed to update status", true)
  }

  class BlogScreen {
    /** The `blog_posts` table, by id. */
    var posts: map<string, Post>
    var form: PostForm
    /** The id of the post being edited, if any. */
    var editing: Option<string>
    var dialogOpen: bool
    var toasts: seq<Notice>

    constructor (posts0: map<string, Post>)
      ensures posts == posts0 && form == EMPTY_FORM && editing == None && !dialogOpen && toasts == []
    {
      posts, form, editing, dialogOpen, toasts := posts0, EMPTY_FORM, None, false, [];
    }

    /** `resetForm`. */
    method ResetForm()
      modifies this`form, this`editing
      ensures form == EMPTY_FORM && editing == None
    {
      form, editing := EMPTY_FORM, None;
    }

    /** `handleEdit` of the post with id `id`. */
    method HandleEdit(id: string, p: Post)
      modifies this`form, this`editing, this`dialogOpen
      ensures form == EditForm(p) && editing == Some(id) && dialogOpen
    {
      form, editing, dialogOpen := EditForm(p), Some(id), true;
    }

    /** `handleSubmit` at time `now`: an update of the post being edited (an
        id no longer in the table changes nothing), or an insert under the
        id the store assigns, which fails if taken; `fails` is the store's
        error. On success the dialog closes and the form is reset; on
        failure only an error toast is added. */
    method HandleSubmit(now: string, newId: string, fails: bool)
      modifies this
      ensures var data := PostData(old(form), now);
        var failed := fails || (old(editing).None? && newId in old(posts));
        if failed then
          posts == old(posts) && form == old(form) && editing == old(editing)
          && dialogOpen == old(dialogOpen) && toasts == old(toasts) + [SaveFailed]
        else
          form == EMPTY_FORM && editing == None && !dialogOpen
          && (old(editing).Some? ==>
                toasts == old(toasts) + [Updated]
                && posts == if old(editing).value in old(posts) then old(posts)[old(editing).value := data] else old(posts))
          && (old(editing).None? ==> toasts == old(toasts) + [Created] && posts == old(posts)[newId := data])
    {
      var data := PostData(form, now);
      if fails || (editing.None? && newId in posts) {
        toasts := toasts + [SaveFailed];
        return;
      }
      if editing.Some? {
        if editing.value in posts {
          posts := posts[editing.value := data];
        }
        toasts := toasts + [Updated];
      } else {
        posts := posts[newId := data];
        toasts := toasts + [Created];
      }
      dialogOpen := false;
      form, editing := EMPTY_FORM, None;
    }

    /** `handleDelete`, after the confirmation dialog's answer. */
    method HandleDelete(id: string, confirmed: bool, fails: bool)
      modifies this`posts, this`toasts
      ensures !confirmed ==> posts == old(posts) && toasts == old(toasts)
      ensures confirmed && fails ==> posts == old(posts) && toasts == old(toasts) + [DeleteFailed]
      ensures confirmed && !fails ==> posts == old(posts) - {id} && toasts == old(toasts) + [Deleted]
    {
      if !confirmed {
        return;
      }
      if fails {
        toasts := toasts + [DeleteFailed];
      } else {
        posts := posts - {id};
        toasts := toasts + [Deleted];
      }
    }

    /** `toggleStatus` of the listed post `p` with id `id`, at time `now`:
        the new status is computed from the listed post and written with
        its publication time. */
    method ToggleStatus(id: string, p: Post, now: string, fails: bool)
      modifies this`posts, this`toasts
      ensures fails ==> posts == old(posts) && toasts == old(toasts) + [StatusFailed]
      ensures !fails ==> toasts == old(toasts) + [StatusChanged(ToggledStatus(p.status) == "published")]
      ensures !fails && id in old(posts) ==> posts == old(posts)[id := WithStatus(old(posts)[id], ToggledStatus(p.status), now)]
      ensures !fails && id !in old(posts) ==> posts == old(posts)
    {
      if fails {
        toasts := toasts + [StatusFailed];
        return;
      }
      if id in posts {
        posts := posts[id := WithStatus(posts[id], ToggledStatus(p.status), now)];
      }
      toasts := toasts + [StatusChanged(ToggledStatus(p.status) == "published")];
    }
  }
}
