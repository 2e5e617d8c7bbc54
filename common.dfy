/**
 * Values shared by the contact editor, the birthday hook and the cell detail page:
 * an optional value (standing for JavaScript's `null`/`undefined`) and the
 * notification record handed to the toast collaborator.
 */
module Common {

  /** `None` stands for a value that is `null` or `undefined`. */
  datatype Option<+T> = None | Some(value: T)

  /** The two toast variants the application uses. */
  datatype Variant = Default | Destructive

  /** A user-visible notification: title, description and variant. */
  datatype Toast = Toast(title: string, description: string, variant: Variant)

  /** The error notification used throughout: title "Erro", destructive variant. */
  function ErrorToast(description: string): (t: Toast)
    ensures t.variant == Destructive && t.description == description
  {
    Toast("Erro", description, Destructive)
  }
}
