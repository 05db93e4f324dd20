/** Two-step cleanup of certificate resources: mark what is unused with a deletion time, delete it in
    a later pass unless it has been used again. */
module CertificateCleanup {
  import opened Wrappers

  type Id = string

  /** The deletion time tag, as text that may not parse; times are in nanoseconds. */
  datatype Mark = At(deadline: int) | Unreadable

  /** The tags that matter here. Both updates replace all tags: marking drops the hash, restoring the
      hash drops the mark. */
  datatype ResourceTags = ResourceTags(mark: Option<Mark>, hash: bool)
  datatype Resource = Resource(name: string, tags: ResourceTags, associated: bool)

  const SECOND := 1_000_000_000
  const PREFIX := "oci-nic"

  /** The deletion time is written with whole seconds (section 5.6 of RFC 3339). */
  function Deadline(now: int, grace: int): int {
    (now + grace) / SECOND * SECOND
  }

  datatype Class = Ignored | Unmarked | Waiting | Expired

  /** What a pass does with a resource it lists. */
  function Classify(r: Resource, now: int): Class {
    if !(PREFIX <= r.name) then Ignored
    else match r.tags.mark
      case None => if r.tags.hash then Unmarked else Ignored
      case Some(Unreadable) => Unmarked
      case Some(At(t)) => if t < now then Expired else Waiting
  }

  // ---- The loops of a pass ----------------------------------------------------------------

  /** A resource as it was listed, and the clock when it was looked at. */
  datatype Listed = Listed(id: Id, resource: Resource, at: int)

  function Of(items: seq<Listed>, c: Class): seq<Id> {
    if items == [] then []
    else (if Classify(items[0].resource, items[0].at) == c then [items[0].id] else []) + Of(items[1..], c)
  }

  function AllItems(pages: seq<seq<Listed>>): seq<Listed> {
    if pages == [] then [] else pages[0] + AllItems(pages[1..])
  }

  lemma {:induction false} OfConcat(xs: seq<Listed>, ys: seq<Listed>, c: Class)
    ensures Of(xs + ys, c) == Of(xs, c) + Of(ys, c)
  {
    if xs == [] {
      assert xs + ys == ys;
    } else {
      assert (xs + ys)[0] == xs[0] && (xs + ys)[1..] == xs[1..] + ys;
      OfConcat(xs[1..], ys, c);
    }
  }

  lemma OfSnoc(xs: seq<Listed>, x: Listed, c: Class)
    ensures Of(xs + [x], c) == Of(xs, c) + (if Classify(x.resource, x.at) == c then [x.id] else [])
  {
    OfConcat(xs, [x], c);
    assert [x][1..] == [];
  }

  function Free(ids: seq<Id>, associated: Id -> bool): seq<Id> {
    if ids == [] then [] else (if associated(ids[0]) then [] else [ids[0]]) + Free(ids[1..], associated)
  }

  method FilterOutAssociated(ids: seq<Id>, associated: Id -> bool) returns (r: seq<Id>)
    ensures r == Free(ids, associated)
  {
    r := [];
    for i := 0 to |ids|
      invariant r == Free(ids[..i], associated)
    {
      assert ids[..i + 1] == ids[..i] + [ids[i]];
      FreeSnoc(ids[..i], ids[i], associated);
      if !associated(ids[i]) {
        r := r + [ids[i]];
      }
    }
    assert ids[..|ids|] == ids;
  }

  lemma {:induction false} FreeSnoc(ids: seq<Id>, id: Id, associated: Id -> bool)
    ensures Free(ids + [id], associated) == Free(ids, associated) + (if associated(id) then [] else [id])
  {
    if ids == [] {
      assert [] + [id] == [id];
    } else {
      assert (ids + [id])[0] == ids[0] && (ids + [id])[1..] == ids[1..] + [id];
      FreeSnoc(ids[1..], id, associated);
    }
  }

  /** Page by page: what has no readable mark yet, and what is past its deletion time. */
  method ClassifyPages(pages: seq<seq<Listed>>) returns (unmarked: seq<Id>, expired: seq<Id>)
    ensures unmarked == Of(AllItems(pages), Unmarked) && expired == Of(AllItems(pages), Expired)
  {
    unmarked, expired := [], [];
    ghost var done: seq<Listed> := [];
    assert pages[0..] == pages;
    for p := 0 to |pages|
      invariant AllItems(pages) == done + AllItems(pages[p..])
      invariant unmarked == Of(done, Unmarked) && expired == Of(done, Expired)
    {
      assert pages[p..][0] == pages[p] && pages[p..][1..] == pages[p + 1..];
      ghost var before := done;
      for i := 0 to |pages[p]|
        invariant done == before + pages[p][..i]
        invariant unmarked == Of(done, Unmarked) && expired == Of(done, Expired)
      {
        var item := pages[p][i];
        assert pages[p][..i + 1] == pages[p][..i] + [item];
        OfSnoc(done, item, Unmarked);
        OfSnoc(done, item, Expired);
        done := done + [item];
        if !(PREFIX <= item.resource.name) {
          continue;
        }
        match item.resource.tags.mark {
          case None =>
            if item.resource.tags.hash {
              unmarked := unmarked + [item.id];
            }
          case Some(Unreadable) => unmarked := unmarked + [item.id];
          case Some(At(t)) =>
            if t < item.at {
              expired := expired + [item.id];
            }
        }
      }
      assert pages[p][..|pages[p]|] == pages[p];
    }
    assert done == AllItems(pages);
  }

  // ---- Runs ------------------------------------------------------------------------------

  /** Where the current pass has got to. A pass that fails goes idle. */
  datatype Phase =
    | Idle
    | Listing(seen: set<Id>, unmarked: set<Id>, expired: set<Id>)
    | Filtering(todo: set<Id>, free: set<Id>, expired: set<Id>)
    | Marking(started: int, todo: set<Id>, expired: set<Id>)
    | Deleting(todo: set<Id>)

  datatype World = World(now: int, resources: map<Id, Resource>, pass: nat, phase: Phase)

  datatype Step =
    // the environment
    | Tick(now: int)
    | Appear(id: Id, resource: Resource)
    | Vanish(id: Id)
    | Associate(id: Id, associated: bool)
    | Restore(id: Id)
    // the cleanup task
    | StartPass
    | List(id: Id)
    | StartFiltering
    | FindFree(id: Id)
    | FindUsed(id: Id)
    | StartMarking
    | SetMark(id: Id, accepted: bool)
    | StartDeleting
    | Delete(id: Id, accepted: bool)
    | EndPass

  predicate MarkedBefore(r: Resource) {
    r.tags.mark.Some? && r.tags.mark.value.At?
  }

  predicate Initial(w: World) {
    w.phase.Idle? && forall id :: id in w.resources ==> !MarkedBefore(w.resources[id])
  }

  function Retagged(w: World, id: Id, tags: ResourceTags): World
    requires id in w.resources
  {
    w.(resources := w.resources[id := w.resources[id].(tags := tags)])
  }

  predicate EnvironmentStep(w: World, step: Step, w': World) {
    match step
    case Tick(now) => now >= w.now && w' == w.(now := now)
    case Appear(id, r) => id !in w.resources && !MarkedBefore(r) && w' == w.(resources := w.resources[id := r])
    case Vanish(id) => w' == w.(resources := w.resources - {id})
    case Associate(id, a) => id in w.resources && w' == w.(resources := w.resources[id := w.resources[id].(associated := a)])
    case Restore(id) => id in w.resources && w' == Retagged(w, id, ResourceTags(None, true))
    case _ => false
  }

  predicate TaskStep(grace: int, w: World, step: Step, w': World) {
    match step
    case StartPass => w.phase.Idle? && w' == w.(pass := w.pass + 1, phase := Listing({}, {}, {}))
    case List(id) =>
      w.phase.Listing? && id in w.resources && id !in w.phase.seen
      && var c := Classify(w.resources[id], w.now);
         w' == w.(phase := Listing(w.phase.seen + {id},
                                   w.phase.unmarked + (if c == Unmarked then {id} else {}),
                                   w.phase.expired + (if c == Expired then {id} else {})))
    case StartFiltering => w.phase.Listing? && w' == w.(phase := Filtering(w.phase.unmarked, {}, w.phase.expired))
    case FindFree(id) =>
      w.phase.Filtering? && id in w.phase.todo && (id in w.resources ==> !w.resources[id].associated)
      && w' == w.(phase := Filtering(w.phase.todo - {id}, w.phase.free + {id}, w.phase.expired))
    case FindUsed(id) =>
      w.phase.Filtering? && id in w.phase.todo && w' == w.(phase := Filtering(w.phase.todo - {id}, w.phase.free, w.phase.expired))
    case StartMarking =>
      w.phase.Filtering? && w.phase.todo == {} && w' == w.(phase := Marking(w.now, w.phase.free, w.phase.expired))
    case SetMark(id, accepted) =>
      w.phase.Marking? && id in w.phase.todo
      && var next := w.(phase := Marking(w.phase.started, w.phase.todo - {id}, w.phase.expired));
         if accepted then
           id in w.resources && w' == Retagged(next, id, ResourceTags(Some(At(Deadline(w.phase.started, grace))), false))
         else w' == next
    case StartDeleting => w.phase.Marking? && w.phase.todo == {} && w' == w.(phase := Deleting(w.phase.expired))
    case Delete(id, accepted) =>
      w.phase.Deleting? && id in w.phase.todo
      && var next := w.(phase := Deleting(w.phase.todo - {id}));
         w' == if accepted then next.(resources := w.resources - {id}) else next
    case EndPass => !w.phase.Idle? && w' == w.(phase := Idle)
    case _ => false
  }

  predicate Next(grace: int, w: World, step: Step, w': World) {
    EnvironmentStep(w, step, w') || TaskStep(grace, w, step, w')
  }

  ghost predicate Run(grace: int, worlds: seq<World>, steps: seq<Step>) {
    |worlds| == |steps| + 1 && Initial(worlds[0])
    && forall i :: 0 <= i < |steps| ==> Next(grace, worlds[i], steps[i], worlds[i + 1])
  }

  // ---- Where marks and lists come from ------------------------------------------------------

  /** At step `q`, in the pass of step `m`, the resource was found to have no associations. */
  ghost predicate FreeAt(worlds: seq<World>, steps: seq<Step>, q: int, id: Id) {
    0 <= q < |steps| && q < |worlds| && steps[q] == FindFree(id) && (id in worlds[q].resources ==> !worlds[q].resources[id].associated)
  }

  ghost predicate FoundFree(worlds: seq<World>, steps: seq<Step>, k: int, id: Id) {
    exists q :: 0 <= q < k < |worlds| && FreeAt(worlds, steps, q, id) && worlds[q].pass == worlds[k].pass
  }

  /** At step `m` the resource was given this deadline, by a pass that had found it free. */
  ghost predicate MarkedAt(grace: int, worlds: seq<World>, steps: seq<Step>, m: int, id: Id, deadline: int) {
    0 <= m < |steps| && m < |worlds| && steps[m] == SetMark(id, true)
    && worlds[m].phase.Marking? && deadline == Deadline(worlds[m].phase.started, grace)
    && FoundFree(worlds, steps, m, id)
  }

  ghost predicate NotRestored(steps: seq<Step>, m: int, k: int, id: Id) {
    forall j :: 0 <= m < j < k <= |steps| ==> steps[j] != Restore(id)
  }

  /** The mark a resource carries at `k` was set at some earlier step and not taken off since. */
  ghost predicate HasOrigin(grace: int, worlds: seq<World>, steps: seq<Step>, k: int, id: Id, deadline: int) {
    exists m :: 0 <= m < k && MarkedAt(grace, worlds, steps, m, id, deadline) && NotRestored(steps, m, k, id)
  }

  ghost predicate MarksHaveOrigins(grace: int, worlds: seq<World>, steps: seq<Step>, k: int) {
    0 <= k < |worlds| && forall id :: id in worlds[k].resources && MarkedBefore(worlds[k].resources[id]) ==>
      HasOrigin(grace, worlds, steps, k, id, worlds[k].resources[id].tags.mark.value.deadline)
  }

  /** The resource was listed as expired in the current pass. */
  ghost predicate ListedExpired(worlds: seq<World>, steps: seq<Step>, l: int, id: Id) {
    0 <= l < |steps| && l < |worlds| && steps[l] == List(id) && worlds[l].phase.Listing?
    && id in worlds[l].resources && Classify(worlds[l].resources[id], worlds[l].now) == Expired
  }

  ghost predicate WasListed(worlds: seq<World>, steps: seq<Step>, k: int, id: Id) {
    exists l :: 0 <= l < k < |worlds| && ListedExpired(worlds, steps, l, id) && worlds[l].pass == worlds[k].pass
  }

  function FreeIn(p: Phase): set<Id> {
    match p case Filtering(_, free, _) => free case Marking(_, todo, _) => todo case _ => {}
  }

  function ExpiredIn(p: Phase): set<Id> {
    match p
    case Listing(_, _, expired) => expired
    case Filtering(_, _, expired) => expired
    case Marking(_, _, expired) => expired
    case Deleting(todo) => todo
    case Idle => {}
  }

  /** The lists of the current pass are backed by earlier steps of the same pass. */
  ghost predicate ListsHaveOrigins(worlds: seq<World>, steps: seq<Step>, k: int) {
    0 <= k < |worlds|
    && (forall id :: id in FreeIn(worlds[k].phase) ==> FoundFree(worlds, steps, k, id))
    && forall id :: id in ExpiredIn(worlds[k].phase) ==> WasListed(worlds, steps, k, id)
  }

  lemma ListsStep(grace: int, worlds: seq<World>, steps: seq<Step>, k: nat)
    requires k < |steps| && |worlds| == |steps| + 1 && Next(grace, worlds[k], steps[k], worlds[k + 1])
    requires ListsHaveOrigins(worlds, steps, k)
    ensures ListsHaveOrigins(worlds, steps, k + 1)
  {
    var w, w' := worlds[k], worlds[k + 1];
    forall id | id in FreeIn(w'.phase) ensures FoundFree(worlds, steps, k + 1, id) {
      if id in FreeIn(w.phase) {
        var q :| 0 <= q < k && FreeAt(worlds, steps, q, id) && worlds[q].pass == w.pass;
        assert w'.pass == w.pass;
      } else {
        assert FreeAt(worlds, steps, k, id);
      }
    }
    forall id | id in ExpiredIn(w'.phase) ensures WasListed(worlds, steps, k + 1, id) {
      if id in ExpiredIn(w.phase) {
        var l :| 0 <= l < k && ListedExpired(worlds, steps, l, id) && worlds[l].pass == w.pass;
        assert w'.pass == w.pass;
      } else {
        assert ListedExpired(worlds, steps, k, id);
      }
    }
  }

  lemma MarksStep(grace: int, worlds: seq<World>, steps: seq<Step>, k: nat)
    requires k < |steps| && |worlds| == |steps| + 1 && Next(grace, worlds[k], steps[k], worlds[k + 1])
    requires ListsHaveOrigins(worlds, steps, k) && MarksHaveOrigins(grace, worlds, steps, k)
    ensures MarksHaveOrigins(grace, worlds, steps, k + 1)
  {
    var w, w' := worlds[k], worlds[k + 1];
    forall id | id in w'.resources && MarkedBefore(w'.resources[id])
      ensures HasOrigin(grace, worlds, steps, k + 1, id, w'.resources[id].tags.mark.value.deadline)
    {
      var deadline := w'.resources[id].tags.mark.value.deadline;
      if steps[k] == SetMark(id, true) {
        assert MarkedAt(grace, worlds, steps, k, id, deadline);
        assert NotRestored(steps, k, k + 1, id);
      } else {
        assert id in w.resources && w.resources[id].tags == w'.resources[id].tags && steps[k] != Restore(id);
        var m :| 0 <= m < k && MarkedAt(grace, worlds, steps, m, id, deadline) && NotRestored(steps, m, k, id);
        assert NotRestored(steps, m, k + 1, id);
      }
    }
  }

  lemma {:induction false} Origins(grace: int, worlds: seq<World>, steps: seq<Step>, k: nat)
    requires Run(grace, worlds, steps) && k < |worlds|
    ensures ListsHaveOrigins(worlds, steps, k) && MarksHaveOrigins(grace, worlds, steps, k)
  {
    if k > 0 {
      Origins(grace, worlds, steps, k - 1);
      assert Next(grace, worlds[k - 1], steps[k - 1], worlds[k]);
      ListsStep(grace, worlds, steps, k - 1);
      MarksStep(grace, worlds, steps, k - 1);
    }
  }

  /** A marked resource has lost its hash, so that its next use by the controller finds a mismatch and
      restores it. */
  lemma {:induction false} MarkedLacksHash(grace: int, worlds: seq<World>, steps: seq<Step>, k: nat, id: Id)
    requires Run(grace, worlds, steps) && k < |worlds|
    requires id in worlds[k].resources && MarkedBefore(worlds[k].resources[id])
    ensures !worlds[k].resources[id].tags.hash
  {
    if k > 0 {
      assert Next(grace, worlds[k - 1], steps[k - 1], worlds[k]);
      if id in worlds[k - 1].resources && MarkedBefore(worlds[k - 1].resources[id]) {
        MarkedLacksHash(grace, worlds, steps, k - 1, id);
      }
    }
  }

  // ---- Passes ----------------------------------------------------------------------------

  lemma {:induction false} Monotone(grace: int, worlds: seq<World>, steps: seq<Step>, i: nat, j: nat)
    requires Run(grace, worlds, steps) && i <= j < |worlds|
    ensures worlds[i].pass <= worlds[j].pass && worlds[i].now <= worlds[j].now
    decreases j
  {
    if i < j {
      Monotone(grace, worlds, steps, i, j - 1);
      assert Next(grace, worlds[j - 1], steps[j - 1], worlds[j]);
    }
  }

  /** The two lists of a pass have nothing in common. */
  predicate Separate(p: Phase) {
    match p
    case Listing(seen, unmarked, expired) => unmarked !! expired && unmarked <= seen && expired <= seen
    case Filtering(todo, free, expired) => todo + free !! expired
    case Marking(_, todo, expired) => todo !! expired
    case _ => true
  }

  lemma {:induction false} ListsAreSeparate(grace: int, worlds: seq<World>, steps: seq<Step>, k: nat)
    requires Run(grace, worlds, steps) && k < |worlds|
    ensures Separate(worlds[k].phase)
  {
    if k > 0 {
      ListsAreSeparate(grace, worlds, steps, k - 1);
      assert Next(grace, worlds[k - 1], steps[k - 1], worlds[k]);
    }
  }

  /** Past the listing of its pass, and not going to delete `id` in it. */
  predicate WillNotDelete(p: Phase, id: Id) {
    (p.Marking? || p.Deleting? || p.Idle?) && id !in ExpiredIn(p)
  }

  lemma {:induction false} StaysUndeleted(grace: int, worlds: seq<World>, steps: seq<Step>, m: nat, k: nat, id: Id)
    requires Run(grace, worlds, steps) && m <= k < |worlds| && worlds[m].pass == worlds[k].pass
    requires WillNotDelete(worlds[m].phase, id)
    ensures WillNotDelete(worlds[k].phase, id)
    ensures !worlds[m].phase.Marking? ==> !worlds[k].phase.Marking?
    decreases k
  {
    if m < k {
      Monotone(grace, worlds, steps, m, k - 1);
      Monotone(grace, worlds, steps, k - 1, k);
      StaysUndeleted(grace, worlds, steps, m, k - 1, id);
      assert Next(grace, worlds[k - 1], steps[k - 1], worlds[k]);
    }
  }

  /** No pass both marks and deletes a resource. */
  lemma NoPassMarksAndDeletes(grace: int, worlds: seq<World>, steps: seq<Step>, m: nat, i: nat, id: Id)
    requires Run(grace, worlds, steps) && m < |steps| && i < |steps|
    requires steps[m].SetMark? && steps[m].id == id && steps[i].Delete? && steps[i].id == id
    ensures worlds[m].pass != worlds[i].pass
  {
    assert Next(grace, worlds[m], steps[m], worlds[m + 1]) && Next(grace, worlds[i], steps[i], worlds[i + 1]);
    ListsAreSeparate(grace, worlds, steps, m);
    if worlds[m].pass == worlds[i].pass {
      if m < i {
        StaysUndeleted(grace, worlds, steps, m, i, id);
      } else {
        StaysUndeleted(grace, worlds, steps, i + 1, m, id);
      }
    }
  }

  // ---- Safety of deletions ------------------------------------------------------------------

  lemma DeadlineIsClose(now: int, grace: int)
    ensures now + grace - SECOND < Deadline(now, grace) <= now + grace
  {
  }

  /** Step `m` marked the resource, in an earlier pass that had found it without associations; the
      pass of step `i` listed it at step `l`, past its deadline and not restored since. */
  ghost predicate Justifies(grace: int, worlds: seq<World>, steps: seq<Step>, m: int, l: int, i: int, id: Id) {
    0 <= m < l < i < |worlds| && i <= |steps|
    && steps[m] == SetMark(id, true) && worlds[m].phase.Marking? && FoundFree(worlds, steps, m, id)
    && worlds[m].pass < worlds[l].pass == worlds[i].pass
    && ListedExpired(worlds, steps, l, id) && NotRestored(steps, m, l, id)
    && worlds[l].now > Deadline(worlds[m].phase.started, grace)
    && worlds[i].now - worlds[m].phase.started > grace - SECOND
  }

  /** Along every run, a deletion is requested only for a resource that an earlier pass found without
      associations and marked, that was not restored until the current pass listed it, and only when
      more than the grace period less one second has gone by. */
  lemma DeletionIsJustified(grace: int, worlds: seq<World>, steps: seq<Step>, i: nat, id: Id)
    requires Run(grace, worlds, steps) && i < |steps| && steps[i].Delete? && steps[i].id == id
    ensures exists m, l :: Justifies(grace, worlds, steps, m, l, i, id)
  {
    assert Next(grace, worlds[i], steps[i], worlds[i + 1]);
    Origins(grace, worlds, steps, i);
    assert id in ExpiredIn(worlds[i].phase) && WasListed(worlds, steps, i, id);
    var l :| 0 <= l < i && ListedExpired(worlds, steps, l, id) && worlds[l].pass == worlds[i].pass;
    Origins(grace, worlds, steps, l);
    var deadline := worlds[l].resources[id].tags.mark.value.deadline;
    var m :| 0 <= m < l && MarkedAt(grace, worlds, steps, m, id, deadline) && NotRestored(steps, m, l, id);
    Monotone(grace, worlds, steps, l, i);
    Monotone(grace, worlds, steps, m, l);
    DeadlineIsClose(worlds[m].phase.started, grace);
    NoPassMarksAndDeletes(grace, worlds, steps, m, i, id);
    assert Justifies(grace, worlds, steps, m, l, i, id);
  }

  // ---- When a deletion hits a resource that is in use again --------------------------------

  /** Nobody restored or removed the resource after step `l` and before step `i`. */
  ghost predicate LeftAlone(steps: seq<Step>, l: int, i: int, id: Id) {
    forall j :: 0 <= l < j < i <= |steps| ==> steps[j] != Restore(id) && steps[j] != Vanish(id)
  }

  ghost predicate StillMarked(w: World, id: Id) {
    id in w.resources && MarkedBefore(w.resources[id])
  }

  /** What has been listed in a pass counts as seen as long as the pass lists. */
  lemma {:induction false} SeenStays(grace: int, worlds: seq<World>, steps: seq<Step>, l: nat, k: nat, id: Id)
    requires Run(grace, worlds, steps) && l < k < |worlds| && worlds[l].pass == worlds[k].pass
    requires ListedExpired(worlds, steps, l, id)
    ensures worlds[k].phase.Listing? ==> id in worlds[k].phase.seen
    decreases k
  {
    assert Next(grace, worlds[k - 1], steps[k - 1], worlds[k]);
    if l < k - 1 {
      Monotone(grace, worlds, steps, l, k - 1);
      Monotone(grace, worlds, steps, k - 1, k);
      SeenStays(grace, worlds, steps, l, k - 1, id);
    }
  }

  /** From its listing to its deletion a resource is on the list of expired ones, so that its pass does
      not mark it again: the mark stays exactly as long as the resource is left alone. */
  lemma {:induction false} MarkStaysIff(grace: int, worlds: seq<World>, steps: seq<Step>, l: nat, i: nat, id: Id)
    requires Run(grace, worlds, steps) && l < i < |worlds| && worlds[l].pass == worlds[i].pass
    requires ListedExpired(worlds, steps, l, id) && id in ExpiredIn(worlds[i].phase)
    ensures StillMarked(worlds[i], id) <==> LeftAlone(steps, l, i, id)
    decreases i
  {
    var k := i - 1;
    assert Next(grace, worlds[k], steps[k], worlds[i]);
    ListsAreSeparate(grace, worlds, steps, k);
    if k > l {
      Monotone(grace, worlds, steps, l, k);
      Monotone(grace, worlds, steps, k, i);
      SeenStays(grace, worlds, steps, l, k, id);
      assert id in ExpiredIn(worlds[k].phase);
      MarkStaysIff(grace, worlds, steps, l, k, id);
      assert LeftAlone(steps, l, i, id) <==> LeftAlone(steps, l, k, id) && steps[k] != Restore(id) && steps[k] != Vanish(id);
    }
  }

  /** Exactly when a deletion is of a resource that has not been restored since it was marked: when no
      restoration falls between its listing and its deletion. And the resource still carries its mark
      exactly when it has been left alone in that time. */
  lemma DeletedUnrestoredIff(grace: int, worlds: seq<World>, steps: seq<Step>, i: nat, id: Id)
    requires Run(grace, worlds, steps) && i < |steps| && steps[i].Delete? && steps[i].id == id
    ensures exists m, l ::
      Justifies(grace, worlds, steps, m, l, i, id)
      && (NotRestored(steps, m, i, id) <==> NotRestored(steps, l, i, id))
      && (StillMarked(worlds[i], id) <==> LeftAlone(steps, l, i, id))
  {
    DeletionIsJustified(grace, worlds, steps, i, id);
    var m, l :| Justifies(grace, worlds, steps, m, l, i, id);
    assert Next(grace, worlds[i], steps[i], worlds[i + 1]);
    MarkStaysIff(grace, worlds, steps, l, i, id);
  }

  // ---- A race that remains -------------------------------------------------------------------

  const TRUSTED := "a"
  const MARKED := ResourceTags(Some(At(SECOND)), false)
  const HASHED := ResourceTags(None, true)

  function Scene(now: int, tags: ResourceTags, pass: nat, phase: Phase): World {
    World(now, map[TRUSTED := Resource(PREFIX, tags, false)], pass, phase)
  }

  const NOBODY: set<Id> := {}
  const ONLY := {TRUSTED}

  /** The worlds of a short run: a resource is marked, its deadline passes, a second pass lists it, and
      then it is restored. */
  function SceneAt(i: nat): World {
    match i
    case 0 => Scene(0, HASHED, 0, Idle)
    case 1 => Scene(0, HASHED, 1, Listing(NOBODY, NOBODY, NOBODY))
    case 2 => Scene(0, HASHED, 1, Listing(ONLY, ONLY, NOBODY))
    case 3 => Scene(0, HASHED, 1, Filtering(ONLY, NOBODY, NOBODY))
    case 4 => Scene(0, HASHED, 1, Filtering(NOBODY, ONLY, NOBODY))
    case 5 => Scene(0, HASHED, 1, Marking(0, ONLY, NOBODY))
    case 6 => Scene(0, MARKED, 1, Marking(0, NOBODY, NOBODY))
    case 7 => Scene(0, MARKED, 1, Deleting(NOBODY))
    case 8 => Scene(0, MARKED, 1, Idle)
    case 9 => Scene(2 * SECOND, MARKED, 1, Idle)
    case 10 => Scene(2 * SECOND, MARKED, 2, Listing(NOBODY, NOBODY, NOBODY))
    case 11 => Scene(2 * SECOND, MARKED, 2, Listing(ONLY, NOBODY, ONLY))
    case 12 => Scene(2 * SECOND, HASHED, 2, Listing(ONLY, NOBODY, ONLY))
    case 13 => Scene(2 * SECOND, HASHED, 2, Filtering(NOBODY, NOBODY, ONLY))
    case 14 => Scene(2 * SECOND, HASHED, 2, Marking(2 * SECOND, NOBODY, ONLY))
    case _ => Scene(2 * SECOND, HASHED, 2, Deleting(ONLY))
  }

  function StepAt(i: nat): Step {
    match i
    case 0 => StartPass
    case 1 => List(TRUSTED)
    case 2 => StartFiltering
    case 3 => FindFree(TRUSTED)
    case 4 => StartMarking
    case 5 => SetMark(TRUSTED, true)
    case 6 => StartDeleting
    case 7 => EndPass
    case 8 => Tick(2 * SECOND)
    case 9 => StartPass
    case 10 => List(TRUSTED)
    case 11 => Restore(TRUSTED)
    case 12 => StartFiltering
    case 13 => StartMarking
    case _ => StartDeleting
  }

  lemma ScriptIsRun(i: nat)
    requires i < 15
    ensures Next(SECOND, SceneAt(i), StepAt(i), SceneAt(i + 1))
  {
    assert NOBODY + ONLY == ONLY && NOBODY + NOBODY == NOBODY && ONLY - ONLY == NOBODY;
  }

  /** A resource that is restored after its pass has listed it is deleted all the same: the guarantee
      cannot be extended to the moment of deletion. */
  lemma RestoredTooLate() returns (w: seq<World>, s: seq<Step>)
    ensures Run(SECOND, w, s) && |s| == 16
    ensures s[10] == List(TRUSTED) && s[11] == Restore(TRUSTED) && s[15] == Delete(TRUSTED, true)
  {
    var last := World(2 * SECOND, map[], 2, Deleting(NOBODY));
    w := seq(17, i requires 0 <= i < 17 => if i < 16 then SceneAt(i) else last);
    s := seq(16, i requires 0 <= i < 16 => if i < 15 then StepAt(i) else Delete(TRUSTED, true));
    forall i | 0 <= i < 16 ensures Next(SECOND, w[i], s[i], w[i + 1]) {
      if i < 15 {
        ScriptIsRun(i);
      } else {
        assert ONLY - ONLY == NOBODY && SceneAt(15).resources - ONLY == map[];
      }
    }
  }
}
