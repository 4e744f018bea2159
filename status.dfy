/**
 * `Status`: the per-tick state machine of the zone strategy. It records
 * the outermost zone reached since the price last returned to zone 0,
 * and whether an entry was made in it. Which zone counts as further out
 * than another, and which direction runs against a zone, are two
 * relations the state machine is given.
 */
module Status {

  import opened Zone

  /** The two zone relations `update` consults: `isOuterThan(z, o)` for
      "zone `z` is further out than zone `o`", and `isInverse(z, d)` for
      "a move in direction `d` runs back against zone `z`". */
  datatype ZoneRelations = ZoneRelations(isOuterThan: (int, int) -> bool, isInverse: (int, UpDown) -> bool)

  /** What the state-machine tests demand of the two relations. */
  predicate MatchesTests(rel: ZoneRelations)
  {
    rel.isOuterThan(1, 0) && rel.isOuterThan(2, 1) && rel.isOuterThan(-2, 0) && rel.isOuterThan(-3, -2) &&
    !rel.isOuterThan(1, 2) && !rel.isOuterThan(2, 2) && !rel.isOuterThan(2, -2) && !rel.isOuterThan(3, 3) &&
    (rel.isOuterThan(3, 2) || rel.isOuterThan(3, -2)) &&
    rel.isInverse(2, Down) && rel.isInverse(3, Down)
  }

  /** A sign-aware reading of the relations: a zone is further out when it
      lies beyond the other on the same side (any non-zero zone is beyond
      zone 0), and a fall runs against a positive zone, a rise against a
      negative one. */
  function SignedOuter(z: int, o: int): bool
  {
    if o > 0 then z > o else if o < 0 then z < o else z != 0
  }

  function SignedInverse(z: int, d: UpDown): bool
  {
    (z > 0 && d == Down) || (z < 0 && d == Up)
  }

  function Reconstructed(): ZoneRelations
  {
    ZoneRelations(SignedOuter, SignedInverse)
  }

  /** The sign-aware reading meets every test, so the tests do not
      contradict one another. */
  lemma ReconstructedMatchesTests()
    ensures MatchesTests(Reconstructed())
  {
  }

  /** The state `update` keeps: the outermost zone and the entry flag. */
  datatype StatusState = StatusState(outermostZone: int, isEntried: bool)

  /** Ticks against the zone needed to enter: two beyond zone ±2, one
      otherwise. */
  function Threshold(rel: ZoneRelations, outermost: int): (n: nat)
    ensures 1 <= n <= 2
    ensures n == 2 <==> rel.isOuterThan(outermost, 2) || rel.isOuterThan(outermost, -2)
  {
    if rel.isOuterThan(outermost, 2) || rel.isOuterThan(outermost, -2) then 2 else 1
  }

  /** The state after `update(zone, upDown, count)`. */
  function UpdateOf(rel: ZoneRelations, s: StatusState, zone: int, upDown: UpDown, count: nat): StatusState
  {
    if zone == 0 then StatusState(0, false)
    else if rel.isOuterThan(zone, s.outermostZone) then StatusState(zone, false)
    else if s.outermostZone == zone then
      if !s.isEntried && rel.isInverse(s.outermostZone, upDown) && count >= Threshold(rel, s.outermostZone)
      then StatusState(s.outermostZone, true)
      else s
    else s
  }

  /** Zone 0 resets the state, whatever it was. */
  lemma ZeroResets(rel: ZoneRelations, s: StatusState, upDown: UpDown, count: nat)
    ensures UpdateOf(rel, s, 0, upDown, count) == StatusState(0, false)
  {
  }

  /** A move to a zone further out records it and clears the entry. */
  lemma OuterMoves(rel: ZoneRelations, s: StatusState, zone: int, upDown: UpDown, count: nat)
    requires zone != 0 && rel.isOuterThan(zone, s.outermostZone)
    ensures UpdateOf(rel, s, zone, upDown, count) == StatusState(zone, false)
  {
  }

  /** A non-zero zone that is neither further out nor the outermost one
      changes nothing. */
  lemma InnerKeeps(rel: ZoneRelations, s: StatusState, zone: int, upDown: UpDown, count: nat)
    requires zone != 0 && !rel.isOuterThan(zone, s.outermostZone) && zone != s.outermostZone
    ensures UpdateOf(rel, s, zone, upDown, count) == s
  {
  }

  /** In the outermost zone the state is entered afterwards exactly when
      it was already, or the move runs against the zone for at least the
      threshold's ticks; the zone stays. */
  lemma EntryIff(rel: ZoneRelations, s: StatusState, upDown: UpDown, count: nat)
    requires s.outermostZone != 0 && !rel.isOuterThan(s.outermostZone, s.outermostZone)
    ensures UpdateOf(rel, s, s.outermostZone, upDown, count).outermostZone == s.outermostZone
    ensures UpdateOf(rel, s, s.outermostZone, upDown, count).isEntried <==>
      s.isEntried || (rel.isInverse(s.outermostZone, upDown) && count >= Threshold(rel, s.outermostZone))
  {
  }

  /** An entered state leaves the entered state only through zone 0 or a
      move further out. */
  lemma EnteredStays(rel: ZoneRelations, s: StatusState, zone: int, upDown: UpDown, count: nat)
    requires s.isEntried
    ensures !UpdateOf(rel, s, zone, upDown, count).isEntried <==> zone == 0 || rel.isOuterThan(zone, s.outermostZone)
  {
  }

  /** The outermost zone is reset to 0, kept, or replaced by a zone
      further out. */
  lemma OutermostOnlyMovesOut(rel: ZoneRelations, s: StatusState, zone: int, upDown: UpDown, count: nat)
    ensures var o := UpdateOf(rel, s, zone, upDown, count).outermostZone;
      o == 0 || o == s.outermostZone || rel.isOuterThan(o, s.outermostZone)
  {
  }

  /** Under the sign-aware relations the outermost zone never gets closer
      to 0 except by the reset. */
  lemma SignedOutermostGrows(s: StatusState, zone: int, upDown: UpDown, count: nat)
    ensures var o := UpdateOf(Reconstructed(), s, zone, upDown, count).outermostZone;
      o == 0 || AbsZone(o) >= AbsZone(s.outermostZone)
  {
    OutermostOnlyMovesOut(Reconstructed(), s, zone, upDown, count);
  }

  function AbsZone(z: int): nat
  {
    if z < 0 then -z else z
  }

  class Status {
    var outermostZone: int
    var isEntried: bool

    /** `Status::new`: zone 0, not entered. */
    constructor ()
      ensures outermostZone == 0 && !isEntried
    {
      outermostZone := 0;
      isEntried := false;
    }

    /** A status built from its two fields, as the tests do. */
    constructor From(outermostZone: int, isEntried: bool)
      ensures this.outermostZone == outermostZone && this.isEntried == isEntried
    {
      this.outermostZone := outermostZone;
      this.isEntried := isEntried;
    }

    function State(): (s: StatusState)
      reads this
      ensures s.outermostZone == outermostZone && s.isEntried == isEntried
    {
      StatusState(outermostZone, isEntried)
    }

    /** `update`: moves the state as `UpdateOf` says. */
    method Update(zone: int, upDown: UpDown, count: nat, rel: ZoneRelations)
      modifies this
      ensures State() == UpdateOf(rel, old(State()), zone, upDown, count)
    {
      if zone == 0 {
        outermostZone := 0;
        isEntried := false;
      } else if rel.isOuterThan(zone, outermostZone) {
        outermostZone := zone;
        isEntried := false;
      } else if outermostZone == zone {
        if !isEntried && rel.isInverse(outermostZone, upDown) {
          if rel.isOuterThan(outermostZone, 2) || rel.isOuterThan(outermostZone, -2) {
            if count >= 2 {
              isEntried := true;
            }
          } else {
            if count >= 1 {
              isEntried := true;
            }
          }
        }
      }
    }
  }

  /** One test: a status built from `from`, updated once. */
  method RunUpdate(from: StatusState, zone: int, upDown: UpDown, count: nat, rel: ZoneRelations)
    returns (s: StatusState)
    ensures s == UpdateOf(rel, from, zone, upDown, count)
  {
    var status := new Status.From(from.outermostZone, from.isEntried);
    status.Update(zone, upDown, count, rel);
    s := status.State();
  }

  /** The state-machine tests, for any relations that meet them. */
  method StatusExamples(rel: ZoneRelations) returns (rs: seq<StatusState>)
    requires MatchesTests(rel)
    ensures rs == [StatusState(0, false), StatusState(1, false), StatusState(2, false), StatusState(-2, false),
                   StatusState(2, true), StatusState(0, false), StatusState(-3, false), StatusState(2, true),
                   StatusState(3, false), StatusState(3, true)]
  {
    var initial := new Status();
    initial.Update(0, Eq, 0, rel);
    var r0 := initial.State();
    var r1 := RunUpdate(StatusState(0, false), 1, Up, 1, rel);
    var r2 := RunUpdate(StatusState(1, false), 2, Up, 1, rel);
    var r3 := RunUpdate(StatusState(0, true), -2, Down, 1, rel);
    var r4 := RunUpdate(StatusState(2, true), 1, Down, 1, rel);
    var r5 := RunUpdate(StatusState(2, true), 0, Down, 1, rel);
    var r6 := RunUpdate(StatusState(-2, true), -3, Down, 1, rel);
    var r7 := RunUpdate(StatusState(2, false), 2, Down, 1, rel);
    var r8 := RunUpdate(StatusState(3, false), 3, Down, 1, rel);
    var r9 := RunUpdate(StatusState(3, false), 3, Down, 2, rel);
    rs := [r0, r1, r2, r3, r4, r5, r6, r7, r8, r9];
  }
}
