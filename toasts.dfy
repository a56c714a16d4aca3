/** The argument of the `toast(...)` calls made by the dialog and the delete button. */
module Toasts {

  /** `variant: "destructive"` or the default look. */
  datatype Variant = Plain | Destructive

  datatype Toast = Toast(title: string, description: string, variant: Variant)
}
