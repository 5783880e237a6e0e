/** Shared vocabulary of the timeline model: month and item identifiers and an option type. */
module Common {

  /** A key of the months configuration ("intro", "jan", ..., "dec", "end"). */
  type MonthId = string

  /** An item key, built as month + "/" + filename. */
  type ItemId = string

  /** The special slot at the start of the timeline. */
  const Intro: MonthId := "intro"

  /** The special slot at the end of the timeline; its depth bounds scrolling. */
  const End: MonthId := "end"

  /** The month before the end slot, which is followed by a wider margin. */
  const Dec: MonthId := "dec"

  datatype Option<+T> = None | Some(value: T)

  function Abs(x: real): real
  {
    if x < 0.0 then -x else x
  }
}
