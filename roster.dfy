/**
 * The 22 players: the starting border layout, the per-team reset to it, the
 * projection of a formation template, and the per-id updates the roster panel
 * and drags make. Every operation maps the roster element by element, so none of
 * them creates, removes, reorders or renumbers a player (`SameRoster`).
 */
module Roster {
  import opened Wrappers
  import opened Geometry
  import opened Entities
  import Formations

  // ---------------------------------------------------------------- identities

  function DigitChar(d: nat): char
    requires d < 10
  {
    (48 + d) as char
  }

  /** The decimal numeral of `n`, as a template string prints a number. */
  function Digits(n: nat): (s: string)
    ensures |s| >= 1
    ensures n < 10 <==> |s| == 1
  {
    if n < 10 then [DigitChar(n)] else Digits(n / 10) + [DigitChar(n % 10)]
  }

  /** Different numbers print differently. */
  lemma {:induction false} DigitsInjective(a: nat, b: nat)
    requires Digits(a) == Digits(b)
    ensures a == b
  {
    if a >= 10 && b >= 10 {
      var da, db := Digits(a), Digits(b);
      assert da[|da| - 1] == DigitChar(a % 10) && db[|db| - 1] == DigitChar(b % 10);
      assert a % 10 == b % 10;
      assert da[..|da| - 1] == Digits(a / 10) && db[..|db| - 1] == Digits(b / 10);
      DigitsInjective(a / 10, b / 10);
    } else {
      assert Digits(a)[0] == DigitChar(a) && Digits(b)[0] == DigitChar(b);
    }
  }

  function TeamLetter(t: Team): char {
    if t == A then 'A' else 'B'
  }

  /** A player's id: the team letter followed by the shirt number. */
  function PlayerId(t: Team, n: nat): string {
    [TeamLetter(t)] + Digits(n)
  }

  lemma PlayerIdInjective(t: Team, n: nat, u: Team, m: nat)
    requires PlayerId(t, n) == PlayerId(u, m)
    ensures t == u && n == m
  {
    assert PlayerId(t, n)[0] == TeamLetter(t) && PlayerId(u, m)[0] == TeamLetter(u);
    assert PlayerId(t, n)[1..] == Digits(n) && PlayerId(u, m)[1..] == Digits(m);
    DigitsInjective(n, m);
  }

  predicate SameIdentity(p: Player, q: Player) {
    p.id == q.id && p.team == q.team && p.role == q.role && p.number == q.number
  }

  /** The same players in the same order, whatever their names, positions or visibility. */
  predicate SameRoster(ps: seq<Player>, qs: seq<Player>) {
    |ps| == |qs| && forall i :: 0 <= i < |ps| ==> SameIdentity(ps[i], qs[i])
  }

  predicate UniquePlayerIds(ps: seq<Player>) {
    forall i, j :: 0 <= i < j < |ps| ==> ps[i].id != ps[j].id
  }

  /** The first player with the given id, as a lookup by id finds it. */
  function FindPlayer(ps: seq<Player>, id: string): (r: Option<Player>)
    ensures r.Some? ==> r.value in ps && r.value.id == id
    ensures r.None? ==> forall p :: p in ps ==> p.id != id
  {
    if ps == [] then None
    else if ps[0].id == id then Some(ps[0])
    else FindPlayer(ps[1..], id)
  }

  // ---------------------------------------------------------------- border layout

  /** The column of the border layout: 22 units inside the team's own margin. */
  function BorderX(pitch: Pitch, team: Team): real {
    if team == A then pitch.PL() + 22.0 else pitch.PR() - 22.0
  }

  /** The row of the player with index `idx` (shirt number minus one): tenths of PT..PB. */
  function BorderY(pitch: Pitch, idx: int): real {
    pitch.PT() + idx as real * ((pitch.PB() - pitch.PT()) / 10.0)
  }

  lemma BorderYIncreasing(pitch: Pitch, i: int, j: int)
    requires pitch.Valid() && i < j
    ensures BorderY(pitch, i) < BorderY(pitch, j)
  {
    var step := (pitch.PB() - pitch.PT()) / 10.0;
    assert step > 0.0;
    assert BorderY(pitch, j) - BorderY(pitch, i) == (j - i) as real * step;
    assert (j - i) as real >= 1.0;
    MulAtLeast((j - i) as real, step);
  }

  lemma BorderYInMargins(pitch: Pitch, idx: int)
    requires pitch.Valid() && 0 <= idx <= 10
    ensures pitch.PT() <= BorderY(pitch, idx) <= pitch.PB()
  {
    var step := (pitch.PB() - pitch.PT()) / 10.0;
    NonNegMul(idx as real, step);
    NonNegMul((10 - idx) as real, step);
    assert pitch.PB() - BorderY(pitch, idx) == (10 - idx) as real * step;
  }

  /**
   * One team in single file along its own margin: numbers 1..11 in order, only
   * number 1 in goal, everyone visible with an empty name and no photo, all in one
   * column, from PT (number 1) to PB (number 11) in strictly increasing rows.
   */
  function MakeTeamOnBorder(pitch: Pitch, team: Team): (r: seq<Player>)
    requires pitch.Valid()
    ensures |r| == 11
    ensures forall i :: 0 <= i < 11 ==> r[i].team == team && r[i].number == i + 1 && r[i].id == PlayerId(team, i + 1)
    ensures forall i :: 0 <= i < 11 ==> (r[i].role == Goalkeeper <==> i == 0)
    ensures forall i :: 0 <= i < 11 ==> r[i].visible && r[i].name == "" && r[i].photo == None
    ensures forall i :: 0 <= i < 11 ==> r[i].x == BorderX(pitch, team) && r[i].y == BorderY(pitch, i)
    ensures forall i :: 0 <= i < 11 ==> pitch.PT() <= r[i].y <= pitch.PB()
    ensures forall i, j :: 0 <= i < j < 11 ==> r[i].y < r[j].y
    ensures r[0].y == pitch.PT() && r[10].y == pitch.PB()
  {
    var r := seq(11, i requires 0 <= i < 11 =>
      Player(PlayerId(team, i + 1), team, if i == 0 then Goalkeeper else Outfield, i + 1, "",
             BorderX(pitch, team), BorderY(pitch, i), true, None));
    forall i | 0 <= i < 11 ensures pitch.PT() <= r[i].y <= pitch.PB() {
      BorderYInMargins(pitch, i);
    }
    forall i, j | 0 <= i < j < 11 ensures r[i].y < r[j].y {
      BorderYIncreasing(pitch, i, j);
    }
    r
  }

  /**
   * The identities the board keeps for the whole session: slot `i` holds team A
   * for `i < 11` and team B after, shirt `i % 11 + 1`, the goalkeeper exactly at
   * shirt 1, and the id made of team letter and shirt.
   */
  predicate StandardSlot(p: Player, i: int) {
    p.team == (if i < 11 then A else B) && p.number == i % 11 + 1
    && p.id == PlayerId(p.team, p.number) && (p.role == Goalkeeper <==> p.number == 1)
  }

  predicate StandardRoster(ps: seq<Player>) {
    |ps| == 22 && forall i :: 0 <= i < |ps| ==> StandardSlot(ps[i], i)
  }

  /** Team A's border layout followed by team B's has the standard identities. */
  lemma BorderTeamsStandard(pitch: Pitch)
    requires pitch.Valid()
    ensures StandardRoster(MakeTeamOnBorder(pitch, A) + MakeTeamOnBorder(pitch, B))
  {
    var a, b := MakeTeamOnBorder(pitch, A), MakeTeamOnBorder(pitch, B);
    var r := a + b;
    forall i | 0 <= i < 22 ensures StandardSlot(r[i], i) {
      if i < 11 {
        assert r[i] == a[i];
      } else {
        assert r[i] == b[i - 11];
      }
    }
  }

  /** The starting roster: team A then team B, 11 each, with the standard identities, all ids distinct. */
  function InitialPlayers(pitch: Pitch): (r: seq<Player>)
    requires pitch.Valid()
    ensures |r| == 22
    ensures r[..11] == MakeTeamOnBorder(pitch, A) && r[11..] == MakeTeamOnBorder(pitch, B)
    ensures StandardRoster(r)
    ensures UniquePlayerIds(r)
  {
    var a, b := MakeTeamOnBorder(pitch, A), MakeTeamOnBorder(pitch, B);
    BorderTeamsStandard(pitch);
    StandardRosterUnique(a + b);
    assert (a + b)[..11] == a && (a + b)[11..] == b;
    a + b
  }

  /** A standard roster never has two players with one id. */
  lemma StandardRosterUnique(ps: seq<Player>)
    requires StandardRoster(ps)
    ensures UniquePlayerIds(ps)
  {
    forall i, j | 0 <= i < j < |ps| ensures ps[i].id != ps[j].id {
      if ps[i].id == ps[j].id {
        PlayerIdInjective(ps[i].team, ps[i].number, ps[j].team, ps[j].number);
      }
    }
  }

  /** Puts every player of `team` back on the border layout; other players are untouched. */
  function ResetTeamToBorder(pitch: Pitch, ps: seq<Player>, team: Team): (r: seq<Player>)
    ensures SameRoster(r, ps)
    ensures forall i :: 0 <= i < |ps| && ps[i].team != team ==> r[i] == ps[i]
    ensures forall i :: 0 <= i < |ps| && ps[i].team == team ==>
              r[i].x == BorderX(pitch, team) && r[i].y == BorderY(pitch, ps[i].number - 1)
              && r[i].(x := ps[i].x, y := ps[i].y) == ps[i]
  {
    seq(|ps|, i requires 0 <= i < |ps| =>
      if ps[i].team != team then ps[i]
      else ps[i].(x := BorderX(pitch, team), y := BorderY(pitch, ps[i].number - 1)))
  }

  /**
   * On the board's roster, resetting a team puts each of its players exactly
   * where the initial layout has that player.
   */
  lemma ResetMatchesInitial(pitch: Pitch, ps: seq<Player>, team: Team)
    requires pitch.Valid() && SameRoster(ps, InitialPlayers(pitch))
    ensures forall i :: 0 <= i < |ps| && ps[i].team == team ==>
              ResetTeamToBorder(pitch, ps, team)[i].Pos() == InitialPlayers(pitch)[i].Pos()
  {
    var init := InitialPlayers(pitch);
    forall i | 0 <= i < |ps| && ps[i].team == team
      ensures ResetTeamToBorder(pitch, ps, team)[i].Pos() == init[i].Pos()
    {
      assert SameIdentity(ps[i], init[i]);
      if i < 11 {
        assert init[i] == init[..11][i];
      } else {
        assert init[i] == init[11..][i - 11];
      }
    }
  }

  /** After a reset, a higher shirt number is strictly further down the column. */
  lemma ResetOrdersByNumber(pitch: Pitch, ps: seq<Player>, team: Team, i: int, j: int)
    requires pitch.Valid()
    requires 0 <= i < |ps| && 0 <= j < |ps| && ps[i].team == team && ps[j].team == team
    requires ps[i].number < ps[j].number
    ensures ResetTeamToBorder(pitch, ps, team)[i].x == ResetTeamToBorder(pitch, ps, team)[j].x
    ensures ResetTeamToBorder(pitch, ps, team)[i].y < ResetTeamToBorder(pitch, ps, team)[j].y
  {
    BorderYIncreasing(pitch, ps[i].number - 1, ps[j].number - 1);
  }

  // ---------------------------------------------------------------- formations

  /** `lo + a * (hi - lo)`: the point a fraction `a` of the way from `lo` to `hi`. */
  function Scale(lo: real, hi: real, a: Formations.Unit): (r: real)
    requires lo <= hi
    ensures lo <= r <= hi
  {
    NonNegMul(a, hi - lo);
    NonNegMul(1.0 - a, hi - lo);
    assert hi - (lo + a * (hi - lo)) == (1.0 - a) * (hi - lo);
    lo + a * (hi - lo)
  }

  /**
   * A normalized template position on the pitch: scaled into the playable margins,
   * and mirrored left to right for team B.
   */
  function Projected(pitch: Pitch, team: Team, s: Formations.Slot): (q: Point)
    requires pitch.Valid()
    ensures InMargins(pitch, q)
    ensures q.y == Scale(pitch.PT(), pitch.PB(), s.y)
    ensures team == A ==> q.x == Scale(pitch.PL(), pitch.PR(), s.x)
    ensures team == B ==> q.x == pitch.w - Scale(pitch.PL(), pitch.PR(), s.x)
  {
    var rawX := Scale(pitch.PL(), pitch.PR(), s.x);
    Point(if team == A then rawX else pitch.w - rawX, Scale(pitch.PT(), pitch.PB(), s.y))
  }

  /** Whether the template has an entry for the player numbered `n`. */
  predicate HasSlot(t: seq<Formations.Slot>, n: int) {
    1 <= n <= |t|
  }

  /**
   * Moves each player of `team` to the template entry for its shirt number; a
   * player without an entry, and every player of the other team, is untouched.
   * Only positions change.
   */
  function ApplyFormation(pitch: Pitch, ps: seq<Player>, team: Team, t: seq<Formations.Slot>): (r: seq<Player>)
    requires pitch.Valid()
    ensures SameRoster(r, ps)
    ensures forall i :: 0 <= i < |ps| && (ps[i].team != team || !HasSlot(t, ps[i].number)) ==> r[i] == ps[i]
    ensures forall i :: 0 <= i < |ps| && ps[i].team == team && HasSlot(t, ps[i].number) ==>
              r[i].Pos() == Projected(pitch, team, t[ps[i].number - 1])
              && InMargins(pitch, r[i].Pos())
              && r[i].(x := ps[i].x, y := ps[i].y) == ps[i]
  {
    seq(|ps|, i requires 0 <= i < |ps| =>
      if ps[i].team != team || !HasSlot(t, ps[i].number) then ps[i]
      else
        var q := Projected(pitch, team, t[ps[i].number - 1]);
        ps[i].(x := q.x, y := q.y))
  }

  /** Where a formation puts a player depends only on who the player is, not where it stood. */
  lemma FormationIgnoresPriorPositions(pitch: Pitch, ps: seq<Player>, qs: seq<Player>, team: Team, t: seq<Formations.Slot>)
    requires pitch.Valid() && SameRoster(ps, qs)
    ensures forall i :: 0 <= i < |ps| && ps[i].team == team && HasSlot(t, ps[i].number) ==>
              ApplyFormation(pitch, ps, team, t)[i].Pos() == ApplyFormation(pitch, qs, team, t)[i].Pos()
  {
    forall i | 0 <= i < |ps| && ps[i].team == team && HasSlot(t, ps[i].number)
      ensures ApplyFormation(pitch, ps, team, t)[i].Pos() == ApplyFormation(pitch, qs, team, t)[i].Pos()
    {
      assert SameIdentity(ps[i], qs[i]);
    }
  }

  /** Applying the same formation twice gives the same board as applying it once. */
  lemma FormationIdempotent(pitch: Pitch, ps: seq<Player>, team: Team, t: seq<Formations.Slot>)
    requires pitch.Valid()
    ensures ApplyFormation(pitch, ApplyFormation(pitch, ps, team, t), team, t) == ApplyFormation(pitch, ps, team, t)
  {
    var once := ApplyFormation(pitch, ps, team, t);
    var twice := ApplyFormation(pitch, once, team, t);
    assert |twice| == |once|;
    forall i | 0 <= i < |once| ensures twice[i] == once[i] {
      assert SameIdentity(once[i], ps[i]);
      if once[i].team == team && HasSlot(t, once[i].number) {
        assert twice[i].Pos() == once[i].Pos();
      }
    }
  }

  // ---------------------------------------------------------------- per-id updates

  /** The drag update: players with the given id move to `q`, nothing else changes. */
  function MovePlayer(ps: seq<Player>, id: string, q: Point): (r: seq<Player>)
    ensures SameRoster(r, ps)
    ensures forall i :: 0 <= i < |ps| && ps[i].id != id ==> r[i] == ps[i]
    ensures forall i :: 0 <= i < |ps| && ps[i].id == id ==> r[i].Pos() == q && r[i].(x := ps[i].x, y := ps[i].y) == ps[i]
  {
    seq(|ps|, i requires 0 <= i < |ps| => if ps[i].id == id then ps[i].(x := q.x, y := q.y) else ps[i])
  }

  /** Flips the visibility of the players with the given id; nothing else changes. */
  function ToggleVisibility(ps: seq<Player>, id: string): (r: seq<Player>)
    ensures SameRoster(r, ps)
    ensures forall i :: 0 <= i < |ps| && ps[i].id != id ==> r[i] == ps[i]
    ensures forall i :: 0 <= i < |ps| && ps[i].id == id ==>
              r[i].visible == !ps[i].visible && r[i].(visible := ps[i].visible) == ps[i]
  {
    seq(|ps|, i requires 0 <= i < |ps| => if ps[i].id == id then ps[i].(visible := !ps[i].visible) else ps[i])
  }

  lemma ToggleTwiceRestores(ps: seq<Player>, id: string)
    ensures ToggleVisibility(ToggleVisibility(ps, id), id) == ps
  {
    var once := ToggleVisibility(ps, id);
    var twice := ToggleVisibility(once, id);
    forall i | 0 <= i < |ps| ensures twice[i] == ps[i] {
      assert once[i].id == ps[i].id;
    }
  }

  /** Renames the players with the given id; nothing else changes. */
  function Rename(ps: seq<Player>, id: string, name: string): (r: seq<Player>)
    ensures SameRoster(r, ps)
    ensures forall i :: 0 <= i < |ps| && ps[i].id != id ==> r[i] == ps[i]
    ensures forall i :: 0 <= i < |ps| && ps[i].id == id ==> r[i] == ps[i].(name := name)
  {
    seq(|ps|, i requires 0 <= i < |ps| => if ps[i].id == id then ps[i].(name := name) else ps[i])
  }

  /** Of two renames of one player the later one wins. */
  lemma RenameLastWins(ps: seq<Player>, id: string, first: string, second: string)
    ensures Rename(Rename(ps, id, first), id, second) == Rename(ps, id, second)
  {
    var once := Rename(ps, id, first);
    assert forall i :: 0 <= i < |ps| ==> once[i].id == ps[i].id;
  }

  /** Clears every name and nothing else. */
  function ResetAllNames(ps: seq<Player>): (r: seq<Player>)
    ensures SameRoster(r, ps)
    ensures forall i :: 0 <= i < |ps| ==> r[i] == ps[i].(name := "")
  {
    seq(|ps|, i requires 0 <= i < |ps| => ps[i].(name := ""))
  }

  /** Clearing names twice is clearing them once. */
  lemma ResetAllNamesIdempotent(ps: seq<Player>)
    ensures ResetAllNames(ResetAllNames(ps)) == ResetAllNames(ps)
  {
    var once := ResetAllNames(ps);
    assert forall i :: 0 <= i < |ps| ==> ResetAllNames(once)[i] == once[i];
  }

  /** A rename followed by clearing all names leaves no trace of the rename. */
  lemma ResetAllNamesErasesRename(ps: seq<Player>, id: string, name: string)
    ensures ResetAllNames(Rename(ps, id, name)) == ResetAllNames(ps)
  {
    var renamed := Rename(ps, id, name);
    assert forall i :: 0 <= i < |ps| ==> ResetAllNames(renamed)[i] == ResetAllNames(ps)[i];
  }
}
