/** The record types held by the application store (the interfaces
    UserSkinProfile, UserRoutine, RoutineStep, ProgressEntry and WishlistItem)
    and the shallow merges that update them.  A TypeScript property `type`
    is called `kind` here, because `type` is a Dafny keyword. */
module Records {
  import opened Wrappers

  /** The skin profile filled in by the quiz.  Every key is optional, so a
      `Partial<UserSkinProfile>` has the same shape and the same type. */
  datatype Profile = Profile(
    skinType: Option<string>,
    concerns: Option<seq<string>>,
    sensitivity: Option<string>,
    completed: Option<bool>)

  /** The profile the store starts with: `{}`. */
  const EmptyProfile := Profile(None, None, None, None)

  /** `{ ...prev, ...patch }`: a key present in the patch takes the patch's
      value, a key absent from it keeps the previous value. */
  function MergeProfile(prev: Profile, patch: Profile): (r: Profile)
    ensures r.skinType == (if patch.skinType.Some? then patch.skinType else prev.skinType)
    ensures r.concerns == (if patch.concerns.Some? then patch.concerns else prev.concerns)
    ensures r.sensitivity == (if patch.sensitivity.Some? then patch.sensitivity else prev.sensitivity)
    ensures r.completed == (if patch.completed.Some? then patch.completed else prev.completed)
  {
    Profile(
      prev.skinType.Override(patch.skinType),
      prev.concerns.Override(patch.concerns),
      prev.sensitivity.Override(patch.sensitivity),
      prev.completed.Override(patch.completed))
  }

  /** Two merges in a row are one merge with the second patch laid over the
      first: nothing the first patch set is lost unless the second sets it
      again. */
  lemma MergeProfileTwice(p: Profile, a: Profile, b: Profile)
    ensures MergeProfile(MergeProfile(p, a), b) == MergeProfile(p, MergeProfile(a, b))
  {
  }

  /** Merging the same patch again changes nothing. */
  lemma MergeProfileIdempotent(p: Profile, a: Profile)
    ensures MergeProfile(MergeProfile(p, a), a) == MergeProfile(p, a)
  {
  }

  datatype RoutineKind = Morning | Evening

  datatype RoutineStep = RoutineStep(
    id: string,
    kind: string,
    productId: Option<string>,
    productName: Option<string>,
    completed: Option<bool>)

  datatype Routine = Routine(
    id: string,
    name: string,
    kind: RoutineKind,
    steps: seq<RoutineStep>)

  /** `Partial<UserRoutine>`: every key of a routine, each optional.  The
      id is among them, so an update can rename a routine. */
  datatype RoutinePatch = RoutinePatch(
    id: Option<string>,
    name: Option<string>,
    kind: Option<RoutineKind>,
    steps: Option<seq<RoutineStep>>)

  /** `{ ...routine, ...updates }` */
  function MergeRoutine(r: Routine, u: RoutinePatch): (m: Routine)
    ensures m.id == u.id.GetOr(r.id)
    ensures m.name == u.name.GetOr(r.name)
    ensures m.kind == u.kind.GetOr(r.kind)
    ensures m.steps == u.steps.GetOr(r.steps)
    ensures u == RoutinePatch(None, None, None, None) ==> m == r
  {
    Routine(u.id.GetOr(r.id), u.name.GetOr(r.name), u.kind.GetOr(r.kind), u.steps.GetOr(r.steps))
  }

  datatype ProgressEntry = ProgressEntry(
    id: string,
    date: string,
    imageUri: string,
    notes: string,
    concerns: seq<string>)

  datatype WishlistItem = WishlistItem(
    id: string,
    name: string,
    price: real,
    imageUrl: string,
    addedDate: string)

  /** The id accessors the list operations are keyed on. */
  function RoutineId(r: Routine): string { r.id }
  function EntryId(e: ProgressEntry): string { e.id }
  function ItemId(i: WishlistItem): string { i.id }
}
