/**
 * ui.LayoutManagementMode: the enumeration of how a layout creates the
 * sub-objects it gets from a data source, and its string parser.
 */
module LayoutManagementMode {
  import opened Common

  /** All sub-objects are created at setup time (set by `initialize`). */
  const NORMAL: int := 0
  /** Only the visible sub-objects are created, at update time (set by `initialize`). */
  const JUST_IN_TIME: int := 1

  /** A value of the enumeration. */
  predicate IsMode(m: int) {
    m == NORMAL || m == JUST_IN_TIME
  }

  /** The constants `initialize` installs, as (NORMAL, JUST_IN_TIME). */
  function Initialize(): (modes: (int, int))
    ensures IsMode(modes.0) && IsMode(modes.1) && modes.0 != modes.1
  {
    (0, 1)
  }

  /**
   * `fromString`: the mode named by `s`. `s` may be null (None); every input
   * other than the two documented names falls back to NORMAL.
   */
  function FromString(s: Option<string>): (m: int)
    ensures IsMode(m)
    ensures m == JUST_IN_TIME <==> s == Some("just_in_time")
    ensures m == NORMAL <==> s != Some("just_in_time")
  {
    match s
    case Some("normal") => 0
    case Some("just_in_time") => 1
    case _ => 0
  }

  /** The documented name of each mode. */
  function Name(m: int): (s: string)
    requires IsMode(m)
  {
    if m == JUST_IN_TIME then "just_in_time" else "normal"
  }

  /** Parsing a mode's documented name gives the mode back. */
  lemma FromStringName(m: int)
    requires IsMode(m)
    ensures FromString(Some(Name(m))) == m
  {
  }

  /** Both names that `initialize` documents are recognised: "normal" is 0 and "just_in_time" is 1. */
  lemma FromStringDocumented()
    ensures FromString(Some("normal")) == Initialize().0
    ensures FromString(Some("just_in_time")) == Initialize().1
    ensures FromString(None) == NORMAL
  {
  }
}
