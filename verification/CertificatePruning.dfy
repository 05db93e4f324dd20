/** Pruning of stale certificate versions: keep the first few, schedule the others for deletion. */
module CertificatePruning {

  /** A listed version; `scheduled` says that it has a time of deletion already. */
  datatype Version = Version(number: int, failed: bool, current: bool, scheduled: bool)

  /** Newer versions than the current one are passed over. */
  predicate Eligible(v: Version, current: int) {
    v.number <= current
  }

  /** Neither in use nor on its way out. */
  predicate Open(v: Version) {
    !v.scheduled && !v.current
  }

  // ---- The loop ----------------------------------------------------------------------------

  predicate Asked(v: Version, current: int, keep: int, seen: int) {
    Eligible(v, current) && (v.failed || seen >= keep) && Open(v)
  }

  /** How many of the first `i` versions have been counted as preserved. */
  function Seen(vs: seq<Version>, current: int, keep: int, i: nat): nat
    requires i <= |vs|
  {
    if i == 0 then 0
    else
      var before := Seen(vs, current, keep, i - 1);
      if Eligible(vs[i - 1], current) && !Asked(vs[i - 1], current, keep, before) then before + 1 else before
  }

  /** The versions, by position, whose deletion is requested. */
  predicate Requested(vs: seq<Version>, current: int, keep: int, i: nat)
    requires i < |vs|
  {
    Asked(vs[i], current, keep, Seen(vs, current, keep, i))
  }

  class Certificate {
    var versions: seq<Version>

    constructor (versions: seq<Version>)
      ensures this.versions == versions
    {
      this.versions := versions;
    }

    /** Schedule one version; the service may refuse. */
    method Schedule(i: nat)
      requires i < |versions|
      modifies this
      ensures versions == old(versions) || versions == old(versions)[i := old(versions)[i].(scheduled := true)]
    {
      var refused: bool := *;
      if !refused {
        versions := versions[i := versions[i].(scheduled := true)];
      }
    }

    /** Works on the list as it was read; a refused request is skipped. */
    method Prune(current: int, keep: int) returns (asked: seq<bool>)
      modifies this
      ensures |asked| == |versions| == |old(versions)|
      ensures forall i :: 0 <= i < |asked| ==> asked[i] == Requested(old(versions), current, keep, i)
      ensures forall i :: 0 <= i < |asked| ==>
        versions[i] == old(versions)[i] || (asked[i] && versions[i] == old(versions)[i].(scheduled := true))
    {
      var listed := versions;
      var seen := 0;
      asked := [];
      for i := 0 to |listed|
        invariant |versions| == |listed| && |asked| == i
        invariant seen == Seen(listed, current, keep, i)
        invariant forall k :: 0 <= k < i ==> asked[k] == Requested(listed, current, keep, k)
        invariant forall k :: 0 <= k < i ==>
          versions[k] == listed[k] || (asked[k] && versions[k] == listed[k].(scheduled := true))
        invariant forall k :: i <= k < |listed| ==> versions[k] == listed[k]
      {
        if listed[i].number > current {
          asked := asked + [false];
          continue;
        }
        if (listed[i].failed || seen >= keep) && !listed[i].scheduled && !listed[i].current {
          Schedule(i);
          asked := asked + [true];
          continue;
        }
        asked := asked + [false];
        seen := seen + 1;
      }
    }
  }

  // ---- What the loop amounts to -------------------------------------------------------------

  /** Versions that are kept for sure until enough have been kept: all eligible ones but the open
      failed ones. */
  function Keepers(vs: seq<Version>, current: int, i: nat): nat
    requires i <= |vs|
  {
    if i == 0 then 0
    else Keepers(vs, current, i - 1) + if Eligible(vs[i - 1], current) && !(vs[i - 1].failed && Open(vs[i - 1])) then 1 else 0
  }

  function EligibleBefore(vs: seq<Version>, current: int, i: nat): nat
    requires i <= |vs|
  {
    if i == 0 then 0 else EligibleBefore(vs, current, i - 1) + if Eligible(vs[i - 1], current) then 1 else 0
  }

  /** The counter and the number of keepers agree until enough have been seen, and both stay there. */
  lemma {:induction false} SeenCountsKeepers(vs: seq<Version>, current: int, keep: int, i: nat)
    requires i <= |vs|
    ensures Seen(vs, current, keep, i) <= Keepers(vs, current, i)
    ensures Seen(vs, current, keep, i) < keep ==> Seen(vs, current, keep, i) == Keepers(vs, current, i)
  {
    if i > 0 {
      SeenCountsKeepers(vs, current, keep, i - 1);
    }
  }

  /** Exactly which versions a pass asks to delete, without reference to its counter. */
  lemma PruneExactly(vs: seq<Version>, current: int, keep: int, i: nat)
    requires i < |vs|
    ensures Requested(vs, current, keep, i) <==>
      Eligible(vs[i], current) && Open(vs[i]) && (vs[i].failed || Keepers(vs, current, i) >= keep)
  {
    SeenCountsKeepers(vs, current, keep, i);
  }

  /** The earlier eligible versions that this pass leaves alone. */
  function LeftBefore(vs: seq<Version>, current: int, keep: int, i: nat): set<nat>
    requires i <= |vs|
  {
    set k: nat | k < i && Eligible(vs[k], current) && !Requested(vs, current, keep, k)
  }

  lemma {:induction false} SeenCountsLeft(vs: seq<Version>, current: int, keep: int, i: nat)
    requires i <= |vs|
    ensures |LeftBefore(vs, current, keep, i)| == Seen(vs, current, keep, i)
  {
    if i == 0 {
      assert LeftBefore(vs, current, keep, 0) == {};
    } else {
      SeenCountsLeft(vs, current, keep, i - 1);
      LeftOneMore(vs, current, keep, i);
    }
  }

  lemma LeftOneMore(vs: seq<Version>, current: int, keep: int, i: nat)
    requires 0 < i <= |vs|
    ensures LeftBefore(vs, current, keep, i) ==
      LeftBefore(vs, current, keep, i - 1) + (if Eligible(vs[i - 1], current) && !Requested(vs, current, keep, i - 1) then {i - 1} else {})
    ensures (i - 1) as nat !in LeftBefore(vs, current, keep, i - 1)
  {
  }

  /** No version that is current, newer than the current one or scheduled already is asked for; and one
      that has not failed only when enough earlier ones, none newer than the current one, stay. */
  lemma PruneIsSafe(vs: seq<Version>, current: int, keep: int, i: nat)
    requires i < |vs| && Requested(vs, current, keep, i)
    ensures !vs[i].current && !vs[i].scheduled && vs[i].number <= current
    ensures !vs[i].failed ==> |LeftBefore(vs, current, keep, i)| >= keep
  {
    SeenCountsLeft(vs, current, keep, i);
  }

  // ---- Pruning twice -----------------------------------------------------------------------

  /** The versions after a pass whose requests were all accepted. */
  function Pruned(vs: seq<Version>, current: int, keep: int): (r: seq<Version>)
    ensures |r| == |vs|
  {
    seq(|vs|, i requires 0 <= i < |vs| =>
      vs[i].(scheduled := vs[i].scheduled || Requested(vs, current, keep, i)))
  }

  /** After a pass no open failed version is left, so every eligible version counts. */
  lemma {:induction false} AllKeepersNow(vs: seq<Version>, current: int, keep: int, i: nat)
    requires i <= |vs|
    ensures Keepers(Pruned(vs, current, keep), current, i) == EligibleBefore(vs, current, i)
  {
    if i > 0 {
      AllKeepersNow(vs, current, keep, i - 1);
    }
  }

  /** A second pass asks for exactly the sound, open versions that the first one kept only because
      failed versions before them did not count yet. */
  lemma SecondPassAsks(vs: seq<Version>, current: int, keep: int, i: nat)
    requires i < |vs|
    ensures Requested(Pruned(vs, current, keep), current, keep, i) <==>
      Eligible(vs[i], current) && Open(vs[i]) && !vs[i].failed
      && Keepers(vs, current, i) < keep <= EligibleBefore(vs, current, i)
  {
    PruneExactly(vs, current, keep, i);
    PruneExactly(Pruned(vs, current, keep), current, keep, i);
    AllKeepersNow(vs, current, keep, i);
  }

  /** Pruning is idempotent exactly for the lists without such a version. */
  lemma IdempotentIff(vs: seq<Version>, current: int, keep: int)
    ensures Pruned(Pruned(vs, current, keep), current, keep) == Pruned(vs, current, keep) <==>
      forall i :: 0 <= i < |vs| && Eligible(vs[i], current) && Open(vs[i]) && !vs[i].failed && keep <= EligibleBefore(vs, current, i) ==>
        keep <= Keepers(vs, current, i)
  {
    var once, twice := Pruned(vs, current, keep), Pruned(Pruned(vs, current, keep), current, keep);
    forall i | 0 <= i < |vs|
      ensures once[i] == twice[i] <==>
        !(Eligible(vs[i], current) && Open(vs[i]) && !vs[i].failed && Keepers(vs, current, i) < keep <= EligibleBefore(vs, current, i))
    {
      SecondPassAsks(vs, current, keep, i);
    }
    if forall i :: 0 <= i < |vs| ==> once[i] == twice[i] {
      assert once == twice;
    }
  }

  /** Two passes over the same three versions with one to keep: the second schedules a version that the
      first one kept. */
  lemma PruningTwiceGoesFurther()
    ensures var vs := [Version(3, true, false, false), Version(2, false, false, false), Version(1, false, true, false)];
      !Requested(vs, 3, 1, 1) && Requested(Pruned(vs, 3, 1), 3, 1, 1)
  {
    var vs := [Version(3, true, false, false), Version(2, false, false, false), Version(1, false, true, false)];
    PruneExactly(vs, 3, 1, 1);
    SecondPassAsks(vs, 3, 1, 1);
    assert Keepers(vs, 3, 1) == Keepers(vs, 3, 0) && EligibleBefore(vs, 3, 1) == EligibleBefore(vs, 3, 0) + 1;
  }
}
