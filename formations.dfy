/**
 * The static catalog of 24 formation templates (11 normalized positions each,
 * x from the own goal line towards the opponent, y across the pitch) and the
 * picker's grouping of them by number of defenders.
 */
module Formations {
  import opened Geometry

  /** A normalized coordinate. */
  type Unit = r: real | 0.0 <= r <= 1.0

  /** A normalized template position: both coordinates lie in [0, 1] by construction. */
  datatype Slot = Slot(x: Unit, y: Unit)

  /**
   * The catalogue's keys: `F4231` is the template keyed "1-4-2-3-1", and so on;
   * the digits are the lines from defence to attack behind the goalkeeper.
   */
  datatype Formation =
      F433
    | F442
    | F4231
    | F352
    | F361
    | F343
    | F451
    | F4141
    | F541
    | F532
    | F523
    | F4321
    | F4123
    | F3421
    | F4411
    | F334
    | F4222
    | F3412
    | F460
    | F235
    | F4312
    | F3142
    | F4132
    | F3241

  /**
   * The normalized positions of a formation, goalkeeper first, then the outfield
   * players in shirt-number order.
   */
  function Template(f: Formation): (t: seq<Slot>)
    ensures |t| == 11
  {
    match f
    case F433 =>
      [Slot(0.04, 0.50), Slot(0.20, 0.15), Slot(0.20, 0.38), Slot(0.20, 0.62), Slot(0.20, 0.85), Slot(0.41, 0.27), Slot(0.42, 0.50), Slot(0.41, 0.73), Slot(0.65, 0.15), Slot(0.68, 0.50), Slot(0.65, 0.85)]
    case F442 =>
      [Slot(0.04, 0.50), Slot(0.20, 0.10), Slot(0.20, 0.37), Slot(0.20, 0.63), Slot(0.20, 0.90), Slot(0.42, 0.10), Slot(0.42, 0.37), Slot(0.42, 0.63), Slot(0.42, 0.90), Slot(0.64, 0.33), Slot(0.64, 0.67)]
    case F4231 =>
      [Slot(0.04, 0.50), Slot(0.20, 0.10), Slot(0.20, 0.37), Slot(0.20, 0.63), Slot(0.20, 0.90), Slot(0.37, 0.37), Slot(0.37, 0.63), Slot(0.53, 0.15), Slot(0.54, 0.50), Slot(0.53, 0.85), Slot(0.69, 0.50)]
    case F352 =>
      [Slot(0.04, 0.50), Slot(0.20, 0.23), Slot(0.20, 0.50), Slot(0.20, 0.77), Slot(0.39, 0.08), Slot(0.41, 0.30), Slot(0.42, 0.50), Slot(0.41, 0.70), Slot(0.39, 0.92), Slot(0.63, 0.35), Slot(0.63, 0.65)]
    case F361 =>
      [Slot(0.04, 0.50), Slot(0.20, 0.22), Slot(0.20, 0.50), Slot(0.20, 0.78), Slot(0.37, 0.10), Slot(0.40, 0.28), Slot(0.41, 0.44), Slot(0.41, 0.56), Slot(0.40, 0.72), Slot(0.37, 0.90), Slot(0.68, 0.50)]
    case F343 =>
      [Slot(0.04, 0.50), Slot(0.19, 0.22), Slot(0.20, 0.50), Slot(0.19, 0.78), Slot(0.40, 0.15), Slot(0.40, 0.40), Slot(0.40, 0.60), Slot(0.40, 0.85), Slot(0.63, 0.15), Slot(0.66, 0.50), Slot(0.63, 0.85)]
    case F451 =>
      [Slot(0.04, 0.50), Slot(0.20, 0.10), Slot(0.20, 0.35), Slot(0.20, 0.65), Slot(0.20, 0.90), Slot(0.42, 0.10), Slot(0.42, 0.30), Slot(0.43, 0.50), Slot(0.42, 0.70), Slot(0.42, 0.90), Slot(0.68, 0.50)]
    case F4141 =>
      [Slot(0.04, 0.50), Slot(0.20, 0.10), Slot(0.20, 0.35), Slot(0.20, 0.65), Slot(0.20, 0.90), Slot(0.34, 0.50), Slot(0.50, 0.10), Slot(0.50, 0.35), Slot(0.50, 0.65), Slot(0.50, 0.90), Slot(0.68, 0.50)]
    case F541 =>
      [Slot(0.04, 0.50), Slot(0.18, 0.08), Slot(0.20, 0.27), Slot(0.20, 0.50), Slot(0.20, 0.73), Slot(0.18, 0.92), Slot(0.42, 0.15), Slot(0.42, 0.38), Slot(0.42, 0.62), Slot(0.42, 0.85), Slot(0.68, 0.50)]
    case F532 =>
      [Slot(0.04, 0.50), Slot(0.18, 0.08), Slot(0.20, 0.27), Slot(0.20, 0.50), Slot(0.20, 0.73), Slot(0.18, 0.92), Slot(0.42, 0.27), Slot(0.43, 0.50), Slot(0.42, 0.73), Slot(0.65, 0.33), Slot(0.65, 0.67)]
    case F523 =>
      [Slot(0.04, 0.50), Slot(0.18, 0.08), Slot(0.20, 0.27), Slot(0.20, 0.50), Slot(0.20, 0.73), Slot(0.18, 0.92), Slot(0.40, 0.38), Slot(0.40, 0.62), Slot(0.63, 0.15), Slot(0.66, 0.50), Slot(0.63, 0.85)]
    case F4321 =>
      [Slot(0.04, 0.50), Slot(0.20, 0.10), Slot(0.20, 0.37), Slot(0.20, 0.63), Slot(0.20, 0.90), Slot(0.38, 0.25), Slot(0.39, 0.50), Slot(0.38, 0.75), Slot(0.53, 0.38), Slot(0.53, 0.62), Slot(0.68, 0.50)]
    case F4123 =>
      [Slot(0.04, 0.50), Slot(0.20, 0.10), Slot(0.20, 0.37), Slot(0.20, 0.63), Slot(0.20, 0.90), Slot(0.34, 0.50), Slot(0.48, 0.38), Slot(0.48, 0.62), Slot(0.63, 0.15), Slot(0.66, 0.50), Slot(0.63, 0.85)]
    case F3421 =>
      [Slot(0.04, 0.50), Slot(0.19, 0.22), Slot(0.20, 0.50), Slot(0.19, 0.78), Slot(0.37, 0.15), Slot(0.38, 0.38), Slot(0.38, 0.62), Slot(0.37, 0.85), Slot(0.53, 0.38), Slot(0.53, 0.62), Slot(0.68, 0.50)]
    case F4411 =>
      [Slot(0.04, 0.50), Slot(0.20, 0.10), Slot(0.20, 0.37), Slot(0.20, 0.63), Slot(0.20, 0.90), Slot(0.40, 0.10), Slot(0.40, 0.37), Slot(0.40, 0.63), Slot(0.40, 0.90), Slot(0.55, 0.50), Slot(0.68, 0.50)]
    case F334 =>
      [Slot(0.04, 0.50), Slot(0.19, 0.22), Slot(0.20, 0.50), Slot(0.19, 0.78), Slot(0.39, 0.25), Slot(0.40, 0.50), Slot(0.39, 0.75), Slot(0.60, 0.10), Slot(0.62, 0.38), Slot(0.62, 0.62), Slot(0.60, 0.90)]
    case F4222 =>
      [Slot(0.04, 0.50), Slot(0.20, 0.10), Slot(0.20, 0.37), Slot(0.20, 0.63), Slot(0.20, 0.90), Slot(0.37, 0.38), Slot(0.37, 0.62), Slot(0.52, 0.38), Slot(0.52, 0.62), Slot(0.65, 0.33), Slot(0.65, 0.67)]
    case F3412 =>
      [Slot(0.04, 0.50), Slot(0.19, 0.22), Slot(0.20, 0.50), Slot(0.19, 0.78), Slot(0.37, 0.15), Slot(0.38, 0.38), Slot(0.38, 0.62), Slot(0.37, 0.85), Slot(0.53, 0.50), Slot(0.65, 0.33), Slot(0.65, 0.67)]
    case F460 =>
      [Slot(0.04, 0.50), Slot(0.20, 0.10), Slot(0.20, 0.35), Slot(0.20, 0.65), Slot(0.20, 0.90), Slot(0.40, 0.10), Slot(0.41, 0.28), Slot(0.42, 0.46), Slot(0.42, 0.54), Slot(0.41, 0.72), Slot(0.40, 0.90)]
    case F235 =>
      [Slot(0.04, 0.50), Slot(0.19, 0.33), Slot(0.19, 0.67), Slot(0.39, 0.22), Slot(0.40, 0.50), Slot(0.39, 0.78), Slot(0.60, 0.08), Slot(0.62, 0.27), Slot(0.64, 0.50), Slot(0.62, 0.73), Slot(0.60, 0.92)]
    case F4312 =>
      [Slot(0.04, 0.50), Slot(0.20, 0.10), Slot(0.20, 0.37), Slot(0.20, 0.63), Slot(0.20, 0.90), Slot(0.38, 0.25), Slot(0.39, 0.50), Slot(0.38, 0.75), Slot(0.53, 0.50), Slot(0.65, 0.33), Slot(0.65, 0.67)]
    case F3142 =>
      [Slot(0.04, 0.50), Slot(0.19, 0.22), Slot(0.20, 0.50), Slot(0.19, 0.78), Slot(0.33, 0.50), Slot(0.48, 0.15), Slot(0.49, 0.38), Slot(0.49, 0.62), Slot(0.48, 0.85), Slot(0.65, 0.33), Slot(0.65, 0.67)]
    case F4132 =>
      [Slot(0.04, 0.50), Slot(0.20, 0.10), Slot(0.20, 0.37), Slot(0.20, 0.63), Slot(0.20, 0.90), Slot(0.34, 0.50), Slot(0.49, 0.27), Slot(0.50, 0.50), Slot(0.49, 0.73), Slot(0.65, 0.33), Slot(0.65, 0.67)]
    case F3241 =>
      [Slot(0.04, 0.50), Slot(0.19, 0.22), Slot(0.20, 0.50), Slot(0.19, 0.78), Slot(0.36, 0.38), Slot(0.36, 0.62), Slot(0.52, 0.15), Slot(0.53, 0.38), Slot(0.53, 0.62), Slot(0.52, 0.85), Slot(0.68, 0.50)]
  }

  datatype Group = Group(caption: string, members: seq<Formation>)

  const Groups: seq<Group> := [
    Group("4 Def", [F433, F442, F4231, F451, F4141, F4321, F4123, F4411, F4222, F460, F4312, F4132]),
    Group("3 Def", [F352, F361, F343, F3421, F334, F3412, F3142, F3241]),
    Group("5 Def", [F541, F532, F523]),
    Group("2 Def", [F235])
  ]

  function Flatten(gs: seq<Group>): seq<Formation> {
    if gs == [] then [] else gs[0].members + Flatten(gs[1..])
  }

  /** Where each formation sits in the picker, counting through the groups in order. */
  function ListedIndex(f: Formation): nat {
    match f
    case F433 => 0
    case F442 => 1
    case F4231 => 2
    case F451 => 3
    case F4141 => 4
    case F4321 => 5
    case F4123 => 6
    case F4411 => 7
    case F4222 => 8
    case F460 => 9
    case F4312 => 10
    case F4132 => 11
    case F352 => 12
    case F361 => 13
    case F343 => 14
    case F3421 => 15
    case F334 => 16
    case F3412 => 17
    case F3142 => 18
    case F3241 => 19
    case F541 => 20
    case F532 => 21
    case F523 => 22
    case F235 => 23
  }

  /** The picker's list read group by group. */
  lemma FlattenGroups()
    ensures Flatten(Groups) == Listed
  {
    assert Flatten(Groups[4..]) == [];
    assert Flatten(Groups[3..]) == Groups[3].members;
    assert Flatten(Groups[2..]) == Groups[2].members + Groups[3].members;
    assert Flatten(Groups[1..]) == Groups[1].members + Groups[2].members + Groups[3].members;
  }

  const Listed: seq<Formation> := [F433, F442, F4231, F451, F4141, F4321, F4123, F4411, F4222, F460, F4312, F4132, F352, F361, F343, F3421, F334, F3412, F3142, F3241, F541, F532, F523, F235]

  /** `ListedIndex` and `Listed` are inverse to each other. */
  lemma ListedIndexInverse()
    ensures |Listed| == 24
    ensures forall f :: Listed[ListedIndex(f)] == f
    ensures forall i :: 0 <= i < |Listed| ==> ListedIndex(Listed[i]) == i
  {
  }

  /**
   * The picker lists every template exactly once: all 24 appear, and no two
   * positions of the flattened group lists name the same template.
   */
  lemma GroupsListEachOnce()
    ensures |Flatten(Groups)| == 24
    ensures forall f :: f in Flatten(Groups)
    ensures forall i, j :: 0 <= i < j < |Flatten(Groups)| ==> Flatten(Groups)[i] != Flatten(Groups)[j]
  {
    FlattenGroups();
    ListedIndexInverse();
    forall f ensures f in Listed {
      assert Listed[ListedIndex(f)] == f;
    }
    forall i, j | 0 <= i < j < |Listed| ensures Listed[i] != Listed[j] {
      assert ListedIndex(Listed[i]) == i && ListedIndex(Listed[j]) == j;
    }
  }
}
