/** The publication status of blog posts and portfolio projects. */
module Publishing {
  /** The new status of `toggleStatus`: published becomes draft, any other
      status becomes published. */
  function ToggledStatus(status: string): (s: string)
    ensures s == "published" || s == "draft"
    ensures s == "draft" <==> status == "published"
  {
    if status == "published" then "draft" else "published"
  }

  /** Toggling twice restores exactly the statuses the toggle produces. */
  lemma ToggleTwice(status: string)
    ensures ToggledStatus(ToggledStatus(status)) == status <==> status == "published" || status == "draft"
  {
  }
}
