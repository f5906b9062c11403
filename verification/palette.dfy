/**
 * The small vocabularies the pages' style switches pick from. The exact
 * class strings are presentation; which colour family and which icon a value
 * maps to is what the model keeps.
 */
module Palette {

  /** A colour family of a status badge. */
  datatype Tone = Green | Yellow | Red | Blue | Gray

  /** A status icon: check mark, clock, warning triangle. */
  datatype Icon = Check | Clock | Alert
}
