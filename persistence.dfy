/** What the store keeps in device storage and how it gets it back: four
    text slots, written in a fixed order from the in-memory state and read
    back in the same order at start-up.  The storage service is a map from
    key to text (a key that was never written holds nothing).  The JSON
    text format is abstracted as a codec per slot: an encoder, and a decoder
    that may fail. */
module Persistence {
  import opened Wrappers
  import opened Records

  /** The four storage slots, in the order the store reads and writes them. */
  datatype Slot = ProfileSlot | RoutinesSlot | ProgressSlot | WishlistSlot {
    /** The storage key of the slot. */
    function Key(): string {
      match this
      case ProfileSlot => "userProfile"
      case RoutinesSlot => "routines"
      case ProgressSlot => "progressEntries"
      case WishlistSlot => "wishlist"
    }

    /** Position in the read/write order. */
    function Rank(): nat {
      match this
      case ProfileSlot => 0
      case RoutinesSlot => 1
      case ProgressSlot => 2
      case WishlistSlot => 3
    }
  }

  /** Distinct slots have distinct keys, so writing one never disturbs
      another. */
  lemma KeysDistinct(a: Slot, b: Slot)
    ensures a.Key() == b.Key() <==> a == b
  {
  }

  /** Everything the store holds in memory besides the loaded flag. */
  datatype Aggregate = Aggregate(
    profile: Profile,
    routines: seq<Routine>,
    progress: seq<ProgressEntry>,
    wishlist: seq<WishlistItem>)

  /** The state before anything is loaded: `{}`, `[]`, `[]`, `[]`. */
  const Defaults := Aggregate(EmptyProfile, [], [], [])

  /** A stand-in for `JSON.stringify` / `JSON.parse` at one type. */
  datatype Codec<!T> = Codec(encode: T -> string, decode: string -> Option<T>)

  /** A codec whose decoder reads back what its encoder wrote, and whose
      encoder never writes the empty text (JSON text never is empty). */
  ghost predicate Lawful<T(!new)>(c: Codec<T>) {
    forall x :: c.encode(x) != "" && c.decode(c.encode(x)) == Some(x)
  }

  datatype Codecs = Codecs(
    profile: Codec<Profile>,
    routines: Codec<seq<Routine>>,
    progress: Codec<seq<ProgressEntry>>,
    wishlist: Codec<seq<WishlistItem>>)

  ghost predicate LawfulCodecs(c: Codecs) {
    Lawful(c.profile) && Lawful(c.routines) && Lawful(c.progress) && Lawful(c.wishlist)
  }

  /** `getItem(key)`: the text stored under the slot's key, `None` for null. */
  function Read(st: map<string, string>, slot: Slot): Option<string> {
    if slot.Key() in st then Some(st[slot.Key()]) else None
  }

  /** What one line `if (data) set(JSON.parse(data))` does with a slot:
      keep the current value, replace it, or throw. */
  datatype Parsed<T> = Keep | Replace(value: T) | Fail {
    function Apply(current: T): T {
      if Replace? then value else current
    }
  }

  /** Absent and empty text are falsy and keep the current value; any
      other text is decoded, and a decoding failure is a throw. */
  function ParseSlot<T>(data: Option<string>, c: Codec<T>): (p: Parsed<T>)
    ensures p.Keep? <==> data == None || data == Some("")
    ensures p.Fail? <==> data != None && data != Some("") && c.decode(data.value) == None
    ensures p.Replace? ==> Some(p.value) == c.decode(data.value)
  {
    if data == None || data.value == "" then Keep
    else match c.decode(data.value)
      case None => Fail
      case Some(v) => Replace(v)
  }

  /** The load at start-up, from current state `cur`.  All four reads come
      first; a failed read applies nothing.  Then the slots are parsed in
      order under one `try`: the first throw skips every later slot, and the
      slots already applied keep their new values. */
  function Loaded(st: map<string, string>, c: Codecs, cur: Aggregate, readFailed: bool): (a: Aggregate)
    ensures readFailed ==> a == cur
    ensures a.profile == cur.profile || ParseSlot(Read(st, ProfileSlot), c.profile) == Replace(a.profile)
    ensures a.routines == cur.routines || ParseSlot(Read(st, RoutinesSlot), c.routines) == Replace(a.routines)
    ensures a.progress == cur.progress || ParseSlot(Read(st, ProgressSlot), c.progress) == Replace(a.progress)
    ensures a.wishlist == cur.wishlist || ParseSlot(Read(st, WishlistSlot), c.wishlist) == Replace(a.wishlist)
  {
    if readFailed then cur
    else
      var p := ParseSlot(Read(st, ProfileSlot), c.profile);
      if p.Fail? then cur
      else
        var a1 := cur.(profile := p.Apply(cur.profile));
        var r := ParseSlot(Read(st, RoutinesSlot), c.routines);
        if r.Fail? then a1
        else
          var a2 := a1.(routines := r.Apply(a1.routines));
          var g := ParseSlot(Read(st, ProgressSlot), c.progress);
          if g.Fail? then a2
          else
            var a3 := a2.(progress := g.Apply(a2.progress));
            var w := ParseSlot(Read(st, WishlistSlot), c.wishlist);
            if w.Fail? then a3
            else a3.(wishlist := w.Apply(a3.wishlist))
  }

  /** Whether the slot's stored text makes `JSON.parse` throw. */
  predicate Corrupt(st: map<string, string>, c: Codecs, slot: Slot) {
    match slot
    case ProfileSlot => ParseSlot(Read(st, slot), c.profile).Fail?
    case RoutinesSlot => ParseSlot(Read(st, slot), c.routines).Fail?
    case ProgressSlot => ParseSlot(Read(st, slot), c.progress).Fail?
    case WishlistSlot => ParseSlot(Read(st, slot), c.wishlist).Fail?
  }

  /** Rank of the first corrupt slot, 4 when none is. */
  function FirstCorrupt(st: map<string, string>, c: Codecs): (n: nat)
    ensures n <= 4
  {
    if Corrupt(st, c, ProfileSlot) then 0
    else if Corrupt(st, c, RoutinesSlot) then 1
    else if Corrupt(st, c, ProgressSlot) then 2
    else if Corrupt(st, c, WishlistSlot) then 3
    else 4
  }

  /** Slot by slot: a slot ranked before the first corrupt one is parsed
      and applied; the corrupt slot and every later one keep the current
      value, whatever their own text holds. */
  lemma LoadedSlots(st: map<string, string>, c: Codecs, cur: Aggregate)
    ensures var a, n := Loaded(st, c, cur, false), FirstCorrupt(st, c);
      && a.profile == (if 0 < n then ParseSlot(Read(st, ProfileSlot), c.profile).Apply(cur.profile) else cur.profile)
      && a.routines == (if 1 < n then ParseSlot(Read(st, RoutinesSlot), c.routines).Apply(cur.routines) else cur.routines)
      && a.progress == (if 2 < n then ParseSlot(Read(st, ProgressSlot), c.progress).Apply(cur.progress) else cur.progress)
      && a.wishlist == (if 3 < n then ParseSlot(Read(st, WishlistSlot), c.wishlist).Apply(cur.wishlist) else cur.wishlist)
  {
  }

  /** With nothing stored (or only empty texts), loading keeps the current
      state. */
  lemma LoadedNothingStored(st: map<string, string>, c: Codecs, cur: Aggregate)
    requires forall s: Slot :: Read(st, s) == None || Read(st, s) == Some("")
    ensures Loaded(st, c, cur, false) == cur
  {
    assert Read(st, ProfileSlot) == None || Read(st, ProfileSlot) == Some("");
    assert Read(st, RoutinesSlot) == None || Read(st, RoutinesSlot) == Some("");
    assert Read(st, ProgressSlot) == None || Read(st, ProgressSlot) == Some("");
    assert Read(st, WishlistSlot) == None || Read(st, WishlistSlot) == Some("");
  }

  /** A corrupt profile slot throws before the routines slot is parsed, so
      valid stored routines are not loaded either: slot failures are not
      isolated from each other. */
  lemma CorruptProfileSkipsAll(st: map<string, string>, c: Codecs, cur: Aggregate)
    requires Corrupt(st, c, ProfileSlot)
    ensures Loaded(st, c, cur, false) == cur
  {
  }

  /** The text `setItem` stores for a slot, given the state. */
  function Encoded(c: Codecs, a: Aggregate, slot: Slot): string {
    match slot
    case ProfileSlot => c.profile.encode(a.profile)
    case RoutinesSlot => c.routines.encode(a.routines)
    case ProgressSlot => c.progress.encode(a.progress)
    case WishlistSlot => c.wishlist.encode(a.wishlist)
  }

  /** Rank of the first slot whose write the storage rejects, 4 when it
      rejects none. */
  function FirstRejected(rejects: set<Slot>): (n: nat)
    ensures n <= 4
  {
    if ProfileSlot in rejects then 0
    else if RoutinesSlot in rejects then 1
    else if ProgressSlot in rejects then 2
    else if WishlistSlot in rejects then 3
    else 4
  }

  /** One round of the save effect: write the four slots in order, each
      with the full current collection; a rejected write throws and skips
      the writes after it.  `rejects` are the slots whose write the storage
      would reject in this round. */
  function Saved(st: map<string, string>, c: Codecs, a: Aggregate, rejects: set<Slot>): (r: map<string, string>)
    ensures forall s: Slot :: Read(r, s) == Read(st, s) || Read(r, s) == Some(Encoded(c, a, s))
    ensures st.Keys <= r.Keys
  {
    if ProfileSlot in rejects then st
    else
      var s1 := st[ProfileSlot.Key() := Encoded(c, a, ProfileSlot)];
      if RoutinesSlot in rejects then s1
      else
        var s2 := s1[RoutinesSlot.Key() := Encoded(c, a, RoutinesSlot)];
        if ProgressSlot in rejects then s2
        else
          var s3 := s2[ProgressSlot.Key() := Encoded(c, a, ProgressSlot)];
          if WishlistSlot in rejects then s3
          else s3[WishlistSlot.Key() := Encoded(c, a, WishlistSlot)]
  }

  /** After a save round, a slot ranked before the first rejected write
      holds the encoding of the current state; the rejected slot and the
      later ones hold what they held before; keys that are not slots are
      untouched. */
  lemma SavedSlots(st: map<string, string>, c: Codecs, a: Aggregate, rejects: set<Slot>)
    ensures forall s: Slot ::
      Read(Saved(st, c, a, rejects), s) == (if s.Rank() < FirstRejected(rejects) then Some(Encoded(c, a, s)) else Read(st, s))
    ensures forall k :: (forall s: Slot :: k != s.Key()) ==>
      (k in Saved(st, c, a, rejects) <==> k in st) &&
      (k in st ==> Saved(st, c, a, rejects)[k] == st[k])
  {
    forall s: Slot, t: Slot { KeysDistinct(s, t); }
  }

  /** A save round that is not rejected rewrites every slot, so it leaves
      storage exactly as it would have been had the earlier, partly failed
      round never run: one failed write heals at the next save. */
  lemma SaveHeals(st: map<string, string>, c: Codecs, before: Aggregate, a: Aggregate, rejects: set<Slot>)
    ensures Saved(Saved(st, c, before, rejects), c, a, {}) == Saved(st, c, a, {})
  {
    var m1 := Saved(Saved(st, c, before, rejects), c, a, {});
    var m2 := Saved(st, c, a, {});
    SavedSlots(st, c, before, rejects);
    SavedSlots(Saved(st, c, before, rejects), c, a, {});
    SavedSlots(st, c, a, {});
    assert m1.Keys == m2.Keys;
  }

  /** Round trip: with codecs that read back what they write, a complete
      save followed by a load reproduces the saved state, whatever the
      state before the load. */
  lemma SaveThenLoad(st: map<string, string>, c: Codecs, a: Aggregate, cur: Aggregate)
    requires LawfulCodecs(c)
    ensures Loaded(Saved(st, c, a, {}), c, cur, false) == a
  {
    var m := Saved(st, c, a, {});
    SavedSlots(st, c, a, {});
    assert Read(m, ProfileSlot) == Some(c.profile.encode(a.profile));
    assert Read(m, RoutinesSlot) == Some(c.routines.encode(a.routines));
    assert Read(m, ProgressSlot) == Some(c.progress.encode(a.progress));
    assert Read(m, WishlistSlot) == Some(c.wishlist.encode(a.wishlist));
  }

  /** The consequence of non-isolated load failures: when the profile slot
      is corrupt, the save that follows the load (it runs once the loaded
      flag flips) overwrites the stored routines, progress and wishlist
      with the in-memory values, which the load never replaced. */
  lemma CorruptProfileOverwritesRest(st: map<string, string>, c: Codecs, cur: Aggregate)
    requires Corrupt(st, c, ProfileSlot)
    ensures var m := Saved(st, c, Loaded(st, c, cur, false), {});
      && Read(m, RoutinesSlot) == Some(c.routines.encode(cur.routines))
      && Read(m, ProgressSlot) == Some(c.progress.encode(cur.progress))
      && Read(m, WishlistSlot) == Some(c.wishlist.encode(cur.wishlist))
  {
    SavedSlots(st, c, cur, {});
  }
}
