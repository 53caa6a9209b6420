/** Operations on a list of records keyed by a string id, as the store applies
    them to its routines, progress entries and wishlist: `some` on the id,
    `filter` out by id, `map` over the records with a given id, and the
    wishlist's append-if-absent.  `idOf` reads the id of a record. */
module IdLists {

  /** `s.some(x => idOf(x) === id)` */
  predicate HasId<T>(s: seq<T>, id: string, idOf: T -> string)
    ensures HasId(s, id, idOf) <==> id in Ids(s, idOf)
  {
    exists i | 0 <= i < |s| :: idOf(s[i]) == id
  }

  /** The ids the records carry. */
  function Ids<T>(s: seq<T>, idOf: T -> string): set<string> {
    set i | 0 <= i < |s| :: idOf(s[i])
  }

  /** How many records of `s` carry `id`. */
  function CountId<T>(s: seq<T>, id: string, idOf: T -> string): (n: nat)
    ensures n <= |s|
    ensures n == 0 <==> !HasId(s, id, idOf)
  {
    if s == [] then 0
    else (if idOf(s[0]) == id then 1 else 0) + CountId(s[1..], id, idOf)
  }

  /** No two records share an id. */
  ghost predicate UniqueIds<T>(s: seq<T>, idOf: T -> string) {
    forall i, j | 0 <= i < j < |s| :: idOf(s[i]) != idOf(s[j])
  }

  /** `s.filter(x => idOf(x) !== id)` */
  function Without<T>(s: seq<T>, id: string, idOf: T -> string): (r: seq<T>)
    ensures |r| == |s| - CountId(s, id, idOf)
    ensures forall i | 0 <= i < |r| :: r[i] in s && idOf(r[i]) != id
    ensures forall i | 0 <= i < |s| :: idOf(s[i]) != id ==> s[i] in r
    ensures !HasId(r, id, idOf)
  {
    if s == [] then []
    else if idOf(s[0]) == id then Without(s[1..], id, idOf)
    else [s[0]] + Without(s[1..], id, idOf)
  }

  /** Filtering distributes over concatenation; with the one-record cases of
      the definition this pins down that the survivors keep their order. */
  lemma {:induction false} WithoutConcat<T>(a: seq<T>, b: seq<T>, id: string, idOf: T -> string)
    ensures Without(a + b, id, idOf) == Without(a, id, idOf) + Without(b, id, idOf)
  {
    if a == [] {
      assert a + b == b;
    } else {
      var ab := a + b;
      assert ab[0] == a[0] && ab[1..] == a[1..] + b;
      WithoutConcat(a[1..], b, id, idOf);
      if idOf(a[0]) != id {
        calc {
          Without(ab, id, idOf);
          [a[0]] + Without(a[1..] + b, id, idOf);
          [a[0]] + (Without(a[1..], id, idOf) + Without(b, id, idOf));
          ([a[0]] + Without(a[1..], id, idOf)) + Without(b, id, idOf);
        }
      }
    }
  }

  /** Removing an id that no record carries is a no-op. */
  lemma {:induction false} WithoutAbsent<T>(s: seq<T>, id: string, idOf: T -> string)
    requires !HasId(s, id, idOf)
    ensures Without(s, id, idOf) == s
  {
    if s != [] {
      assert idOf(s[0]) != id;
      assert !HasId(s[1..], id, idOf) by {
        forall i | 0 <= i < |s| - 1 ensures idOf(s[1..][i]) != id {
          assert s[1..][i] == s[i + 1];
        }
      }
      WithoutAbsent(s[1..], id, idOf);
      assert s == [s[0]] + s[1..];
    }
  }

  /** Removing the same id twice is removing it once. */
  lemma WithoutIdempotent<T>(s: seq<T>, id: string, idOf: T -> string)
    ensures Without(Without(s, id, idOf), id, idOf) == Without(s, id, idOf)
  {
    WithoutAbsent(Without(s, id, idOf), id, idOf);
  }

  /** Removing one id leaves every other id's records where they were:
      removals of two ids commute. */
  lemma {:induction false} WithoutCommutes<T>(s: seq<T>, a: string, b: string, idOf: T -> string)
    ensures Without(Without(s, a, idOf), b, idOf) == Without(Without(s, b, idOf), a, idOf)
  {
    if s != [] {
      WithoutCommutes(s[1..], a, b, idOf);
    }
  }

  /** `s.map(x => idOf(x) === id ? f(x) : x)`: every record with the id is
      replaced by its image, every other record stays, in place. */
  function UpdateWhere<T>(s: seq<T>, id: string, idOf: T -> string, f: T -> T): (r: seq<T>)
    ensures |r| == |s|
    ensures forall i | 0 <= i < |s| :: r[i] == if idOf(s[i]) == id then f(s[i]) else s[i]
  {
    if s == [] then []
    else [if idOf(s[0]) == id then f(s[0]) else s[0]] + UpdateWhere(s[1..], id, idOf, f)
  }

  /** Updating an id that no record carries is a no-op. */
  lemma UpdateWhereAbsent<T>(s: seq<T>, id: string, idOf: T -> string, f: T -> T)
    requires !HasId(s, id, idOf)
    ensures UpdateWhere(s, id, idOf, f) == s
  {
    var r := UpdateWhere(s, id, idOf, f);
    assert forall i | 0 <= i < |s| :: r[i] == s[i];
  }

  /** The wishlist's add: append `x` unless a record with its id is already
      there. */
  function AddIfAbsent<T>(s: seq<T>, x: T, idOf: T -> string): (r: seq<T>)
    ensures |s| <= |r| <= |s| + 1 && r[..|s|] == s
    ensures Ids(r, idOf) == Ids(s, idOf) + {idOf(x)}
  {
    IdsAppend(s, x, idOf);
    if HasId(s, idOf(x), idOf) then s else s + [x]
  }

  lemma IdsAppend<T>(s: seq<T>, x: T, idOf: T -> string)
    ensures Ids(s + [x], idOf) == Ids(s, idOf) + {idOf(x)}
  {
    var t := s + [x];
    assert t[|s|] == x;
    forall k | k in Ids(t, idOf) ensures k in Ids(s, idOf) + {idOf(x)} {
      var i :| 0 <= i < |t| && idOf(t[i]) == k;
      if i < |s| { assert t[i] == s[i]; }
    }
    forall k | k in Ids(s, idOf) ensures k in Ids(t, idOf) {
      var i :| 0 <= i < |s| && idOf(s[i]) == k;
      assert t[i] == s[i];
    }
  }

  lemma {:induction false} CountIdAppend<T>(s: seq<T>, x: T, id: string, idOf: T -> string)
    ensures CountId(s + [x], id, idOf) == CountId(s, id, idOf) + (if idOf(x) == id then 1 else 0)
  {
    if s == [] {
      assert [x][1..] == [];
    } else {
      assert (s + [x])[1..] == s[1..] + [x];
      CountIdAppend(s[1..], x, id, idOf);
    }
  }

  /** After the add the id is present; the list either stayed as it was
      (the id was there) or grew by exactly `x` at the end (it was not). */
  lemma AddIfAbsentSpec<T>(s: seq<T>, x: T, idOf: T -> string)
    ensures HasId(AddIfAbsent(s, x, idOf), idOf(x), idOf)
    ensures HasId(s, idOf(x), idOf) <==> AddIfAbsent(s, x, idOf) == s
    ensures !HasId(s, idOf(x), idOf) <==> AddIfAbsent(s, x, idOf) == s + [x]
    ensures CountId(AddIfAbsent(s, x, idOf), idOf(x), idOf) == CountId(s, idOf(x), idOf) + (if HasId(s, idOf(x), idOf) then 0 else 1)
  {
    var r := AddIfAbsent(s, x, idOf);
    assert idOf(r[|r| - 1]) == idOf(x) || HasId(s, idOf(x), idOf);
    CountIdAppend(s, x, idOf(x), idOf);
    if !HasId(s, idOf(x), idOf) {
      assert |s + [x]| != |s|;
    }
  }

  /** Adding a second record with an id already added leaves the list as
      the first add left it, so the id occurs exactly once when it did not
      occur before. */
  lemma AddIfAbsentTwice<T>(s: seq<T>, x: T, y: T, idOf: T -> string)
    requires idOf(y) == idOf(x)
    ensures AddIfAbsent(AddIfAbsent(s, x, idOf), y, idOf) == AddIfAbsent(s, x, idOf)
    ensures !HasId(s, idOf(x), idOf) ==> CountId(AddIfAbsent(AddIfAbsent(s, x, idOf), y, idOf), idOf(x), idOf) == 1
  {
    AddIfAbsentSpec(s, x, idOf);
  }

  /** The add keeps ids unique. */
  lemma AddIfAbsentUnique<T>(s: seq<T>, x: T, idOf: T -> string)
    requires UniqueIds(s, idOf)
    ensures UniqueIds(AddIfAbsent(s, x, idOf), idOf)
  {
    if !HasId(s, idOf(x), idOf) {
      var r := s + [x];
      forall i, j | 0 <= i < j < |r| ensures idOf(r[i]) != idOf(r[j]) {
        if j == |s| {
          assert r[i] == s[i];
        }
      }
    }
  }

  /** Filtering keeps ids unique. */
  lemma {:induction false} WithoutUnique<T>(s: seq<T>, id: string, idOf: T -> string)
    requires UniqueIds(s, idOf)
    ensures UniqueIds(Without(s, id, idOf), idOf)
  {
    if s != [] {
      var t := s[1..];
      assert UniqueIds(t, idOf) by {
        forall i, j | 0 <= i < j < |t| ensures idOf(t[i]) != idOf(t[j]) {
          assert t[i] == s[i + 1] && t[j] == s[j + 1];
        }
      }
      WithoutUnique(t, id, idOf);
      if idOf(s[0]) != id {
        var w := Without(t, id, idOf);
        var r := [s[0]] + w;
        forall i, j | 0 <= i < j < |r| ensures idOf(r[i]) != idOf(r[j]) {
          if i == 0 {
            assert r[j] in t;
            var k :| 0 <= k < |t| && t[k] == r[j];
            assert s[k + 1] == r[j];
          } else {
            assert r[i] == w[i - 1] && r[j] == w[j - 1];
          }
        }
      }
    }
  }
}
