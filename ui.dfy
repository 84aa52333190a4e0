/** What the pages hand to the user interface besides their own state. */
module Ui {
  /** A toast notification; `destructive` is the error variant. */
  datatype Toast = Toast(title: string, description: string, destructive: bool)
}
