/** The cleanup task as it runs: its loops take the steps of the state machine, with the rest of the
    world acting in between. And the use of a certificate, which takes a mark off again. */
module CertificateTask {
  import opened Wrappers
  import opened CertificateCleanup
  import Sorting

  function Ids(items: seq<Listed>): set<Id> {
    set x | x in items :: x.id
  }

  /** No resource is listed twice. */
  ghost predicate Once(items: seq<Listed>) {
    forall i, j :: 0 <= i < j < |items| ==> items[i].id != items[j].id
  }

  lemma {:induction false} OfIsPart(items: seq<Listed>, c: Class)
    ensures Sorting.Elements(Of(items, c)) <= Ids(items)
    ensures Once(items) ==> Sorting.Distinct(Of(items, c))
  {
    if items != [] {
      var x, rest := items[0], items[1..];
      assert items == [x] + rest;
      assert Ids(items) == {x.id} + Ids(rest);
      OfIsPart(rest, c);
      assert Once(items) ==> Once(rest);
      if Once(items) && Classify(x.resource, x.at) == c {
        assert x.id !in Ids(rest) by {
          forall y | y in rest ensures y.id != x.id {
            var j :| 0 <= j < |rest| && rest[j] == y;
            assert items[j + 1] == y;
          }
        }
        assert Of(items, c) == [x.id] + Of(rest, c);
        assert x.id !in Of(rest, c);
      }
    }
  }

  /** The listing phase after these items. */
  function After(items: seq<Listed>): Phase {
    Listing(Ids(items), Sorting.Elements(Of(items, Unmarked)), Sorting.Elements(Of(items, Expired)))
  }

  lemma ListedSnoc(items: seq<Listed>, item: Listed, phase: Phase)
    requires phase == After(items)
    ensures var c := Classify(item.resource, item.at);
      After(items + [item]) == Listing(phase.seen + {item.id},
                                       phase.unmarked + (if c == Unmarked then {item.id} else {}),
                                       phase.expired + (if c == Expired then {item.id} else {}))
  {
    OfSnoc(items, item, Unmarked);
    OfSnoc(items, item, Expired);
    assert Ids(items + [item]) == Ids(items) + {item.id};
  }

  lemma AllItemsSnoc(pages: seq<seq<Listed>>, page: seq<Listed>)
    ensures AllItems(pages + [page]) == AllItems(pages) + page
    decreases pages
  {
    if pages == [] {
      assert pages + [page] == [page] && [page][1..] == [];
    } else {
      assert (pages + [page])[0] == pages[0] && (pages + [page])[1..] == pages[1..] + [page];
      AllItemsSnoc(pages[1..], page);
    }
  }

  /** The resources marked and deleted along some steps, in order. */
  function Marked(steps: seq<Step>): seq<Id> {
    if steps == [] then []
    else Marked(steps[..|steps| - 1]) + (if steps[|steps| - 1].SetMark? then [steps[|steps| - 1].id] else [])
  }

  function Deleted(steps: seq<Step>): seq<Id> {
    if steps == [] then []
    else Deleted(steps[..|steps| - 1]) + (if steps[|steps| - 1].Delete? then [steps[|steps| - 1].id] else [])
  }

  function AnyOf(used: set<Id>): Id -> bool {
    id => id in used
  }

  class Cleaner {
    const grace: int
    var world: World
    /** The tags of certificates as they were last read or written by a controller. */
    var cache: map<Id, ResourceTags>
    ghost var worlds: seq<World>
    ghost var steps: seq<Step>

    ghost predicate Valid()
      reads this
    {
      Run(grace, worlds, steps) && worlds[|steps|] == world
    }

    constructor (grace: int, world: World)
      requires Initial(world)
      ensures Valid() && this.world == world && this.grace == grace && cache == map[] && steps == []
    {
      this.grace, this.world, cache := grace, world, map[];
      worlds, steps := [world], [];
    }

    method Take(step: Step, next: World)
      requires Valid() && Next(grace, world, step, next)
      modifies `world, `worlds, `steps
      ensures Valid() && world == next && steps == old(steps) + [step]
      ensures Marked(steps) == Marked(old(steps)) + (if step.SetMark? then [step.id] else [])
      ensures Deleted(steps) == Deleted(old(steps)) + (if step.Delete? then [step.id] else [])
    {
      ghost var ws, ss := worlds, steps;
      worlds, steps, world := ws + [next], ss + [step], next;
      assert steps[..|steps| - 1] == ss;
      forall i | 0 <= i < |steps| ensures Next(grace, worlds[i], steps[i], worlds[i + 1]) {
        if i < |ss| { assert worlds[i] == ws[i] && worlds[i + 1] == ws[i + 1] && steps[i] == ss[i]; }
      }
    }

    /** Anything may happen in the meantime, but the task itself gets no further. */
    method Meanwhile()
      requires Valid()
      modifies `world, `worlds, `steps
      ensures Valid() && world.phase == old(world.phase) && old(steps) <= steps
      ensures Marked(steps) == Marked(old(steps)) && Deleted(steps) == Deleted(old(steps))
    {
      var n: int := *;
      while n > 0
        invariant Valid() && world.phase == old(world.phase) && old(steps) <= steps
        invariant Marked(steps) == Marked(old(steps)) && Deleted(steps) == Deleted(old(steps))
      {
        var step: Step := *;
        var next: World := *;
        if EnvironmentStep(world, step, next) {
          Take(step, next);
        }
        n := n - 1;
      }
    }

    // ---- A pass --------------------------------------------------------------------------

    /** The pages of the listing, each resource as it was when it was looked at. */
    method ListPages() returns (pages: seq<seq<Listed>>)
      requires Valid() && world.phase == Listing({}, {}, {})
      modifies `world, `worlds, `steps
      ensures Valid() && old(steps) <= steps && Once(AllItems(pages))
      ensures world.phase == After(AllItems(pages))
      ensures Marked(steps) == Marked(old(steps)) && Deleted(steps) == Deleted(old(steps))
    {
      var items: seq<Listed> := [];
      pages := [];
      var n: int := *;
      while n > 0
        invariant Valid() && old(steps) <= steps && AllItems(pages) == items && Once(items)
        invariant world.phase == After(items)
        invariant Marked(steps) == Marked(old(steps)) && Deleted(steps) == Deleted(old(steps))
      {
        Meanwhile();
        var id: Id := *;
        if id in world.resources && id !in world.phase.seen {
          var item := Listed(id, world.resources[id], world.now);
          AllItemsSnoc(pages, [item]);
          ListOne(items, item);
          items, pages := items + [item], pages + [[item]];
        }
        n := n - 1;
      }
    }

    method ListOne(ghost items: seq<Listed>, item: Listed)
      requires Valid() && Once(items) && item.id in world.resources && item.id !in Ids(items)
      requires item == Listed(item.id, world.resources[item.id], world.now)
      requires world.phase == After(items)
      modifies `world, `worlds, `steps
      ensures Valid() && old(steps) <= steps && Once(items + [item])
      ensures world.phase == After(items + [item])
      ensures Marked(steps) == Marked(old(steps)) && Deleted(steps) == Deleted(old(steps))
    {
      var c, phase := Classify(item.resource, item.at), world.phase;
      var next := Listing(phase.seen + {item.id},
                          phase.unmarked + (if c == Unmarked then {item.id} else {}),
                          phase.expired + (if c == Expired then {item.id} else {}));
      Take(Step.List(item.id), world.(phase := next));
      ListedSnoc(items, item, phase);
      forall i, j | 0 <= i < j < |items + [item]| ensures (items + [item])[i].id != (items + [item])[j].id {
        assert items[i] in items;
      }
    }

    method AskOne(id: Id) returns (used: bool)
      requires Valid() && world.phase.Filtering? && id in world.phase.todo
      modifies `world, `worlds, `steps
      ensures Valid() && old(steps) <= steps
      ensures world.phase == Filtering(old(world.phase.todo) - {id}, old(world.phase.free) + (if used then {} else {id}), old(world.phase.expired))
      ensures Marked(steps) == Marked(old(steps)) && Deleted(steps) == Deleted(old(steps))
    {
      var phase := world.phase;
      used := id in world.resources && world.resources[id].associated;
      if used {
        Take(FindUsed(id), world.(phase := Filtering(phase.todo - {id}, phase.free, phase.expired)));
      } else {
        Take(FindFree(id), world.(phase := Filtering(phase.todo - {id}, phase.free + {id}, phase.expired)));
      }
    }

    /** Which of these resources have associations, asked one after the other. */
    method AskAssociations(ids: seq<Id>) returns (used: set<Id>)
      requires Valid() && world.phase.Filtering? && Sorting.Distinct(ids)
      requires world.phase.todo == Sorting.Elements(ids) && world.phase.free == {}
      modifies `world, `worlds, `steps
      ensures Valid() && old(steps) <= steps
      ensures world.phase == Filtering({}, Sorting.Elements(ids) - used, old(world.phase.expired))
      ensures Marked(steps) == Marked(old(steps)) && Deleted(steps) == Deleted(old(steps))
    {
      used := {};
      for i := 0 to |ids|
        invariant Valid() && old(steps) <= steps
        invariant world.phase == Filtering(Sorting.Elements(ids) - Sorting.Elements(ids[..i]), Sorting.Elements(ids[..i]) - used, old(world.phase.expired))
        invariant used <= Sorting.Elements(ids[..i])
        invariant Marked(steps) == Marked(old(steps)) && Deleted(steps) == Deleted(old(steps))
      {
        Meanwhile();
        Sorting.NextElement(ids, i);
        var associated := AskOne(ids[i]);
        if associated {
          used := used + {ids[i]};
        }
      }
      assert ids[..|ids|] == ids;
    }

    method MarkOne(id: Id)
      requires Valid() && world.phase.Marking? && id in world.phase.todo
      modifies `world, `worlds, `steps
      ensures Valid() && old(steps) <= steps
      ensures world.phase == Marking(old(world.phase.started), old(world.phase.todo) - {id}, old(world.phase.expired))
      ensures Marked(steps) == Marked(old(steps)) + [id] && Deleted(steps) == Deleted(old(steps))
    {
      var phase := world.phase;
      var next := world.(phase := Marking(phase.started, phase.todo - {id}, phase.expired));
      var accepted: bool := *;
      if accepted && id in world.resources {
        Take(SetMark(id, true), Retagged(next, id, ResourceTags(Some(At(Deadline(phase.started, grace))), false)));
      } else {
        Take(SetMark(id, false), next);
      }
    }

    /** Request a mark for each; a request that fails is skipped. */
    method MarkWithDeletionTime(ids: seq<Id>)
      requires Valid() && world.phase.Marking? && Sorting.Distinct(ids) && world.phase.todo == Sorting.Elements(ids)
      modifies `world, `worlds, `steps
      ensures Valid() && old(steps) <= steps
      ensures world.phase == Marking(old(world.phase.started), {}, old(world.phase.expired))
      ensures Marked(steps) == Marked(old(steps)) + ids && Deleted(steps) == Deleted(old(steps))
    {
      for i := 0 to |ids|
        invariant Valid() && old(steps) <= steps
        invariant world.phase == Marking(old(world.phase.started), Sorting.Elements(ids) - Sorting.Elements(ids[..i]), old(world.phase.expired))
        invariant Marked(steps) == Marked(old(steps)) + ids[..i] && Deleted(steps) == Deleted(old(steps))
      {
        Meanwhile();
        Sorting.NextElement(ids, i);
        MarkOne(ids[i]);
        assert ids[..i + 1] == ids[..i] + [ids[i]];
      }
      assert ids[..|ids|] == ids;
    }

    method DeleteOne(id: Id)
      requires Valid() && world.phase.Deleting? && id in world.phase.todo
      modifies `world, `worlds, `steps
      ensures Valid() && old(steps) <= steps && world.phase == Deleting(old(world.phase.todo) - {id})
      ensures Marked(steps) == Marked(old(steps)) && Deleted(steps) == Deleted(old(steps)) + [id]
    {
      var next := world.(phase := Deleting(world.phase.todo - {id}));
      var accepted: bool := *;
      Take(Delete(id, accepted), if accepted then next.(resources := world.resources - {id}) else next);
    }

    /** Request the deletion of each; a request that fails is skipped. */
    method DeleteExpired(ids: seq<Id>)
      requires Valid() && world.phase.Deleting? && Sorting.Distinct(ids) && world.phase.todo == Sorting.Elements(ids)
      modifies `world, `worlds, `steps
      ensures Valid() && old(steps) <= steps && world.phase.Deleting?
      ensures Marked(steps) == Marked(old(steps)) && Deleted(steps) == Deleted(old(steps)) + ids
    {
      for i := 0 to |ids|
        invariant Valid() && old(steps) <= steps
        invariant world.phase == Deleting(Sorting.Elements(ids) - Sorting.Elements(ids[..i]))
        invariant Marked(steps) == Marked(old(steps)) && Deleted(steps) == Deleted(old(steps)) + ids[..i]
      {
        Meanwhile();
        Sorting.NextElement(ids, i);
        DeleteOne(ids[i]);
        assert ids[..i + 1] == ids[..i] + [ids[i]];
      }
      assert ids[..|ids|] == ids;
    }

    /** List and classify, and drop what has associations; this part may fail. */
    method GetToBeMarkedOrCleanedUp() returns (pages: seq<seq<Listed>>, used: set<Id>, marked: seq<Id>, deleted: seq<Id>)
      requires Valid() && world.phase == Listing({}, {}, {})
      modifies `world, `worlds, `steps
      ensures Valid() && old(steps) <= steps
      ensures Marked(steps) == Marked(old(steps)) && Deleted(steps) == Deleted(old(steps))
      ensures marked == Free(Of(AllItems(pages), Unmarked), AnyOf(used)) && deleted == Of(AllItems(pages), Expired)
      ensures Sorting.Distinct(marked) && Sorting.Distinct(deleted)
      ensures world.phase == Filtering({}, Sorting.Elements(marked), Sorting.Elements(deleted))
    {
      pages := ListPages();
      var unmarked;
      unmarked, deleted := ClassifyPages(pages);
      OfIsPart(AllItems(pages), Unmarked);
      OfIsPart(AllItems(pages), Expired);
      Meanwhile();
      Take(StartFiltering, world.(phase := Filtering(world.phase.unmarked, {}, world.phase.expired)));
      used := AskAssociations(unmarked);
      marked := FilterOutAssociated(unmarked, AnyOf(used));
      FreeIsPart(unmarked, used);
    }

    method Begin()
      requires Valid() && world.phase.Idle?
      modifies `world, `worlds, `steps
      ensures Valid() && old(steps) <= steps && world.phase == Listing({}, {}, {})
      ensures Marked(steps) == Marked(old(steps)) && Deleted(steps) == Deleted(old(steps))
    {
      Take(StartPass, world.(pass := world.pass + 1, phase := Listing({}, {}, {})));
    }

    method BeginMarking()
      requires Valid() && world.phase.Filtering? && world.phase.todo == {}
      modifies `world, `worlds, `steps
      ensures Valid() && old(steps) <= steps
      ensures world.phase == Marking(old(world.now), old(world.phase.free), old(world.phase.expired))
      ensures Marked(steps) == Marked(old(steps)) && Deleted(steps) == Deleted(old(steps))
    {
      Take(StartMarking, world.(phase := Marking(world.now, world.phase.free, world.phase.expired)));
    }

    method BeginDeleting()
      requires Valid() && world.phase.Marking? && world.phase.todo == {}
      modifies `world, `worlds, `steps
      ensures Valid() && old(steps) <= steps && world.phase == Deleting(old(world.phase.expired))
      ensures Marked(steps) == Marked(old(steps)) && Deleted(steps) == Deleted(old(steps))
    {
      Take(StartDeleting, world.(phase := Deleting(world.phase.expired)));
    }

    method End()
      requires Valid() && !world.phase.Idle?
      modifies `world, `worlds, `steps
      ensures Valid() && old(steps) <= steps && world.phase.Idle?
      ensures Marked(steps) == Marked(old(steps)) && Deleted(steps) == Deleted(old(steps))
    {
      Take(EndPass, world.(phase := Idle));
    }

    method MarkAndDelete(marked: seq<Id>, deleted: seq<Id>)
      requires Valid() && Sorting.Distinct(marked) && Sorting.Distinct(deleted)
      requires world.phase == Filtering({}, Sorting.Elements(marked), Sorting.Elements(deleted))
      modifies `world, `worlds, `steps
      ensures Valid() && old(steps) <= steps && world.phase.Deleting?
      ensures Marked(steps) == Marked(old(steps)) + marked && Deleted(steps) == Deleted(old(steps)) + deleted
    {
      Meanwhile();
      BeginMarking();
      MarkWithDeletionTime(marked);
      Meanwhile();
      BeginDeleting();
      DeleteExpired(deleted);
    }

    /** One pass: what it marks and deletes follows from what it listed and was told about associations.
        Every step of it is one of the state machine. */
    method CleanUp() returns (pages: seq<seq<Listed>>, used: set<Id>, failed: bool)
      requires Valid() && world.phase.Idle?
      modifies `world, `worlds, `steps
      ensures Valid() && world.phase.Idle? && old(steps) <= steps
      ensures Marked(steps) == Marked(old(steps)) + if failed then [] else Free(Of(AllItems(pages), Unmarked), AnyOf(used))
      ensures Deleted(steps) == Deleted(old(steps)) + if failed then [] else Of(AllItems(pages), Expired)
    {
      Begin();
      var marked, deleted;
      pages, used, marked, deleted := GetToBeMarkedOrCleanedUp();
      failed := *;
      if !failed {
        MarkAndDelete(marked, deleted);
      }
      End();
    }

    /** So every deletion requested so far is justified. */
    lemma DeletionsAreJustified(i: nat)
      requires Valid() && i < |steps| && steps[i].Delete?
      ensures exists m, l :: Justifies(grace, worlds, steps, m, l, i, steps[i].id)
    {
      DeletionIsJustified(grace, worlds, steps, i, steps[i].id);
    }

    // ---- A use ---------------------------------------------------------------------------

    /** A controller uses the certificate: if the tags it reads have no hash, or another one than that of
        its content, the certificate is updated, which replaces the tags. What it reads is the cached
        tags, unless they have expired. An update refused for a conflict refreshes the cache. */
    method EnsureCertificate(id: Id, sameContent: bool) returns (cached: bool, read: ResourceTags, refused: bool)
      requires Valid() && id in world.resources
      modifies `world, `worlds, `steps, `cache
      ensures Valid() && world.phase == old(world.phase) && old(steps) <= steps
      ensures id in world.resources
      ensures cached ==> id in old(cache) && read == old(cache[id])
      ensures !cached ==> read == old(world.resources[id].tags)
      ensures read.hash && sameContent ==> !refused
      ensures if (read.hash && sameContent) || refused then world == old(world) && steps == old(steps)
        else world == Retagged(old(world), id, ResourceTags(None, true)) && steps == old(steps) + [Restore(id)]
      ensures !refused && StillMarked(old(world), id) ==>
        (StillMarked(world, id) <==> cached && old(cache[id]).hash && sameContent)
      ensures !refused ==> id in cache && (cache[id] == world.resources[id].tags || (cached && cache == old(cache)))
    {
      LackOfHash(id);
      var expired: bool := *;
      cached, refused := id in cache && !expired, false;
      if !cached {
        cache := cache[id := world.resources[id].tags];
      }
      read := cache[id];
      if read.hash && sameContent {
        return;
      }
      refused := *;
      if !refused {
        Take(Restore(id), Retagged(world, id, ResourceTags(None, true)));
        cache := cache[id := ResourceTags(None, true)];
      } else {
        var conflict: bool := *;
        if conflict {
          cache := cache[id := world.resources[id].tags];
        }
      }
    }

    lemma LackOfHash(id: Id)
      requires Valid()
      ensures StillMarked(world, id) ==> !world.resources[id].tags.hash
    {
      if StillMarked(world, id) {
        MarkedLacksHash(grace, worlds, steps, |steps|, id);
      }
    }
  }

  /** Marking does not go through the cache, so that a mark can be in place while the cached tags still
      have their hash: a use that is served from the cache then leaves the mark. */
  method MarkBehindTheCache() returns (c: Cleaner)
    ensures c.Valid() && StillMarked(c.world, TRUSTED) && TRUSTED in c.cache && c.cache[TRUSTED].hash
  {
    c := new Cleaner(SECOND, SceneAt(0));
    var cached, read, refused := c.EnsureCertificate(TRUSTED, true);
    for i := 0 to 8
      invariant c.Valid() && c.grace == SECOND && c.world == SceneAt(i)
      invariant TRUSTED in c.cache && c.cache[TRUSTED].hash
    {
      ScriptIsRun(i);
      c.Take(StepAt(i), SceneAt(i + 1));
    }
  }

  lemma {:induction false} FreeMember(ids: seq<Id>, associated: Id -> bool, id: Id)
    ensures id in Free(ids, associated) <==> id in ids && !associated(id)
  {
    if ids != [] {
      assert ids == [ids[0]] + ids[1..];
      FreeMember(ids[1..], associated, id);
    }
  }

  lemma {:induction false} FreeIsDistinct(ids: seq<Id>, associated: Id -> bool)
    requires Sorting.Distinct(ids)
    ensures Sorting.Distinct(Free(ids, associated))
  {
    if ids != [] {
      FreeIsDistinct(ids[1..], associated);
      FreeMember(ids[1..], associated, ids[0]);
      assert ids[0] !in ids[1..];
    }
  }

  lemma FreeIsPart(ids: seq<Id>, used: set<Id>)
    requires Sorting.Distinct(ids)
    ensures Sorting.Elements(Free(ids, AnyOf(used))) == Sorting.Elements(ids) - used
    ensures Sorting.Distinct(Free(ids, AnyOf(used)))
  {
    FreeIsDistinct(ids, AnyOf(used));
    forall id ensures id in Free(ids, AnyOf(used)) <==> id in ids && id !in used {
      FreeMember(ids, AnyOf(used), id);
    }
  }
}
