/** The application store (`AppProvider`): the four collections and the
    loaded flag, each replaced wholesale by its setter; the mutations the
    screens call; and the load and save effects against device storage. */
module Store {
  import opened Wrappers
  import opened Records
  import opened IdLists
  import opened Persistence

  /** `prev.map(r => r.id === id ? { ...r, ...u } : r)` */
  function UpdateRoutines(s: seq<Routine>, id: string, u: RoutinePatch): (r: seq<Routine>)
    ensures |r| == |s|
    ensures u == RoutinePatch(None, None, None, None) ==> r == s
  {
    UpdateWhere(s, id, RoutineId, r => MergeRoutine(r, u))
  }

  /** Every routine with the id gets the patch, not only the first one;
      every other routine is left as it was, in its place. */
  lemma UpdateRoutinesAt(s: seq<Routine>, id: string, u: RoutinePatch)
    ensures |UpdateRoutines(s, id, u)| == |s|
    ensures forall i | 0 <= i < |s| :: UpdateRoutines(s, id, u)[i] == if s[i].id == id then MergeRoutine(s[i], u) else s[i]
    ensures !HasId(s, id, RoutineId) ==> UpdateRoutines(s, id, u) == s
  {
    if !HasId(s, id, RoutineId) {
      UpdateWhereAbsent(s, id, RoutineId, r => MergeRoutine(r, u));
    }
  }

  /** Two routines sharing an id are both updated. */
  lemma UpdateRoutinesAllMatches(a: Routine, b: Routine, u: RoutinePatch)
    requires a.id == b.id
    ensures UpdateRoutines([a, b], a.id, u) == [MergeRoutine(a, u), MergeRoutine(b, u)]
  {
    UpdateRoutinesAt([a, b], a.id, u);
  }

  class AppStore {
    /** The stand-in for `JSON.stringify` / `JSON.parse`. */
    const codecs: Codecs

    var profile: Profile
    var routines: seq<Routine>
    var progress: seq<ProgressEntry>
    var wishlist: seq<WishlistItem>
    var isLoaded: bool

    /** Device storage: key to stored text. */
    var storage: map<string, string>

    /** The in-memory aggregate. */
    function State(): Aggregate
      reads this
    {
      Aggregate(profile, routines, progress, wishlist)
    }

    /** The provider's first render: every `useState` at its default and
        nothing loaded yet. */
    constructor (codecs: Codecs, storage: map<string, string>)
      ensures this.codecs == codecs && this.storage == storage
      ensures State() == Defaults && !isLoaded
    {
      this.codecs := codecs;
      this.storage := storage;
      profile := EmptyProfile;
      routines := [];
      progress := [];
      wishlist := [];
      isLoaded := false;
    }

    /** `loadData`: read the four slots, then parse and apply them in order
        inside one `try`; whatever happens, set the loaded flag.
        `readFailed` stands for a rejected `getItem`. */
    method Load(readFailed: bool)
      modifies this`profile, this`routines, this`progress, this`wishlist, this`isLoaded
      ensures isLoaded
      ensures State() == Loaded(storage, codecs, old(State()), readFailed)
    {
      if !readFailed {
        var profileData := Read(storage, ProfileSlot);
        var routinesData := Read(storage, RoutinesSlot);
        var progressData := Read(storage, ProgressSlot);
        var wishlistData := Read(storage, WishlistSlot);

        var p := ParseSlot(profileData, codecs.profile);
        if !p.Fail? {
          profile := p.Apply(profile);
          var r := ParseSlot(routinesData, codecs.routines);
          if !r.Fail? {
            routines := r.Apply(routines);
            var g := ParseSlot(progressData, codecs.progress);
            if !g.Fail? {
              progress := g.Apply(progress);
              var w := ParseSlot(wishlistData, codecs.wishlist);
              if !w.Fail? {
                wishlist := w.Apply(wishlist);
              }
            }
          }
        }
      }
      isLoaded := true;
    }

    /** `saveData`: nothing before the load has finished; afterwards write
        the four slots in order, stopping at the first rejected write.  The
        in-memory state is never touched.  `rejects` are the slots whose
        write the storage rejects in this round. */
    method Save(rejects: set<Slot>)
      modifies this`storage
      ensures !isLoaded ==> storage == old(storage)
      ensures isLoaded ==> storage == Saved(old(storage), codecs, State(), rejects)
      ensures State() == old(State())
    {
      if !isLoaded {
        return;
      }
      if ProfileSlot in rejects {
        return;
      }
      storage := storage[ProfileSlot.Key() := codecs.profile.encode(profile)];
      if RoutinesSlot in rejects {
        return;
      }
      storage := storage[RoutinesSlot.Key() := codecs.routines.encode(routines)];
      if ProgressSlot in rejects {
        return;
      }
      storage := storage[ProgressSlot.Key() := codecs.progress.encode(progress)];
      if WishlistSlot in rejects {
        return;
      }
      storage := storage[WishlistSlot.Key() := codecs.wishlist.encode(wishlist)];
    }

    /** `updateUserProfile`: shallow merge of a partial profile. */
    method UpdateUserProfile(patch: Profile)
      modifies this`profile
      ensures profile == MergeProfile(old(profile), patch)
    {
      profile := MergeProfile(profile, patch);
    }

    /** `addRoutine`: append, with no check on the id. */
    method AddRoutine(routine: Routine)
      modifies this`routines
      ensures routines == old(routines) + [routine]
    {
      routines := routines + [routine];
    }

    /** `updateRoutine`: merge the patch into every routine with the id. */
    method UpdateRoutine(id: string, updates: RoutinePatch)
      modifies this`routines
      ensures routines == UpdateRoutines(old(routines), id, updates)
    {
      routines := UpdateRoutines(routines, id, updates);
    }

    /** `deleteRoutine`: drop every routine with the id. */
    method DeleteRoutine(id: string)
      modifies this`routines
      ensures routines == Without(old(routines), id, RoutineId)
    {
      routines := Without(routines, id, RoutineId);
    }

    /** `addProgressEntry`: append, with no check on the id. */
    method AddProgressEntry(entry: ProgressEntry)
      modifies this`progress
      ensures progress == old(progress) + [entry]
    {
      progress := progress + [entry];
    }

    /** `deleteProgressEntry`: drop every entry with the id. */
    method DeleteProgressEntry(id: string)
      modifies this`progress
      ensures progress == Without(old(progress), id, EntryId)
    {
      progress := Without(progress, id, EntryId);
    }

    /** `addToWishlist`: append unless an item with the same id is there. */
    method AddToWishlist(item: WishlistItem)
      modifies this`wishlist
      ensures wishlist == AddIfAbsent(old(wishlist), item, ItemId)
    {
      if !HasId(wishlist, item.id, ItemId) {
        wishlist := wishlist + [item];
      }
    }

    /** `removeFromWishlist`: drop every item with the id. */
    method RemoveFromWishlist(id: string)
      modifies this`wishlist
      ensures wishlist == Without(old(wishlist), id, ItemId)
    {
      wishlist := Without(wishlist, id, ItemId);
    }
  }

  /** Start-up against storage that holds a full save of `a`: the first save
      is suppressed until the load has run, the load restores `a`, and the
      save it triggers writes `a` back. */
  method StartUp(c: Codecs, st: map<string, string>, a: Aggregate, early: Profile) returns (store: AppStore)
    requires LawfulCodecs(c)
    requires st == Saved(map[], c, a, {})
    ensures store.State() == a && store.isLoaded
    ensures store.storage == st
  {
    store := new AppStore(c, st);
    store.UpdateUserProfile(early);
    store.Save({});
    assert store.storage == st;
    store.Load(false);
    SaveThenLoad(map[], c, a, store.State());
    assert store.State() == a;
    store.Save({});
    SaveHeals(map[], c, a, a, {});
  }
}
