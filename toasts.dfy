/** The notifications the pages raise through `useToast`. */
module Toasts {
  /** A toast's title, its description (empty when it has none) and whether
      it uses the destructive variant. */
  datatype Toast = Toast(title: string, description: string, destructive: bool)
}
