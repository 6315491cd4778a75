/** Presentation vocabulary shared by the pages: the variants of the Badge
    component and the text/background tones the pages pick by class name.
    Only the identity of a class string is modelled, not its text. */
module Badge {

  /** The `variant` prop of the Badge component. */
  datatype Variant = Default | Secondary | Destructive | Outline

  /** Colour tones used by the classifiers (text-green-600, bg-blue-500, ...). */
  datatype Tone = Green | Blue | Yellow | Orange | Red
}
