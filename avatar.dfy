/** The avatar's size table and the initials it shows when there is no
    picture.  Text is a sequence of characters; upper-casing is modelled on
    ASCII letters only. */
module Avatar {
  import opened Wrappers

  datatype Size = Small | Medium | Large

  /** The `size` prop as the component sees it: medium when the caller
      passes none. */
  function ResolveSize(size: Option<Size>): (s: Size)
    ensures size.Some? ==> s == size.value
    ensures size.None? ==> s == Medium
  {
    size.GetOr(Medium)
  }

  /** Position in the order small, medium, large. */
  function Rank(size: Size): nat {
    match size
    case Small => 0
    case Medium => 1
    case Large => 2
  }

  /** `getDimensions`: width and height, in points; 16 more per step up
      from 32. */
  function Dimension(size: Size): (d: nat)
    ensures d == 32 + 16 * Rank(size)
  {
    match size
    case Small => 32
    case Medium => 48
    case Large => 64
  }

  /** `getFontSize`: 4 more per step up from 12. */
  function FontSize(size: Size): (f: nat)
    ensures f == 12 + 4 * Rank(size)
  {
    match size
    case Small => 12
    case Medium => 16
    case Large => 20
  }

  /** `dimensions / 2`, the corner radius of both the container and the
      image: half the side, so both are circles. */
  function BorderRadius(size: Size): (r: nat)
    ensures 2 * r == Dimension(size)
  {
    Dimension(size) / 2
  }

  /** The initials' line height: the full side, so one line fills the
      avatar and the text sits centred vertically. */
  function LineHeight(size: Size): (h: nat)
    ensures h == Dimension(size) && FontSize(size) < h
  {
    Dimension(size)
  }

  /** Larger sizes are larger in both dimension and font, and the font
      always fits within the side. */
  lemma SizeTableMonotone()
    ensures Dimension(Small) < Dimension(Medium) < Dimension(Large)
    ensures FontSize(Small) < FontSize(Medium) < FontSize(Large)
    ensures forall s: Size :: FontSize(s) < Dimension(s)
  {
  }

  predicate IsLower(ch: char) { 'a' <= ch <= 'z' }

  /** `toUpperCase` on ASCII text: each lower-case letter becomes its
      capital, every other character stays. */
  function Upper(s: string): (r: string)
    ensures |r| == |s|
    ensures forall i | 0 <= i < |s| :: !IsLower(r[i])
    ensures forall i | 0 <= i < |s| :: !IsLower(s[i]) ==> r[i] == s[i]
    ensures forall i | 0 <= i < |s| :: IsLower(s[i]) ==> r[i] as int == s[i] as int - 32
  {
    if s == [] then []
    else [if IsLower(s[0]) then (s[0] as int - 32) as char else s[0]] + Upper(s[1..])
  }

  /** Upper-casing twice is upper-casing once. */
  lemma UpperIdempotent(s: string)
    ensures Upper(Upper(s)) == Upper(s)
  {
    var u := Upper(s);
    assert forall i | 0 <= i < |u| :: Upper(u)[i] == u[i];
  }

  /** `name.split(' ')`: the pieces between single spaces, empty pieces
      included, so there is always at least one. */
  function Split(s: string): (parts: seq<string>)
    ensures |parts| >= 1
    ensures forall i | 0 <= i < |parts| :: ' ' !in parts[i]
  {
    if s == [] then [""]
    else
      var rest := Split(s[1..]);
      if s[0] == ' ' then [""] + rest
      else [[s[0]] + rest[0]] + rest[1..]
  }

  /** The inverse of `Split`: the pieces glued back with single spaces. */
  function Join(parts: seq<string>): string
    requires |parts| >= 1
  {
    if |parts| == 1 then parts[0] else parts[0] + " " + Join(parts[1..])
  }

  /** Splitting loses nothing: joining the pieces gives the text back. */
  lemma {:induction false} JoinSplit(s: string)
    ensures Join(Split(s)) == s
  {
    if s != [] {
      var rest := Split(s[1..]);
      JoinSplit(s[1..]);
      if s[0] == ' ' {
        assert Split(s)[1..] == rest;
      } else {
        var parts := Split(s);
        assert parts[0] == [s[0]] + rest[0];
        if |rest| == 1 {
          assert Join(parts) == [s[0]] + rest[0];
        } else {
          assert parts[1..] == rest[1..];
          assert Join(rest) == rest[0] + " " + Join(rest[1..]);
        }
        assert s == [s[0]] + s[1..];
      }
    }
  }

  /** With no space in the text, `split` gives the text itself. */
  lemma {:induction false} SplitNoSpace(s: string)
    requires ' ' !in s
    ensures Split(s) == [s]
  {
    if s != [] {
      SplitNoSpace(s[1..]);
      assert s == [s[0]] + s[1..];
    }
  }

  /** The first piece is the text before the first space, and there is a
      second piece. */
  lemma {:induction false} SplitFirst(s: string, i: nat)
    requires i < |s| && s[i] == ' ' && ' ' !in s[..i]
    ensures |Split(s)| >= 2 && Split(s)[0] == s[..i]
  {
    if i > 0 {
      var t := s[1..][..i - 1];
      assert ' ' !in t by {
        forall k | 0 <= k < i - 1 ensures t[k] != ' ' {
          assert t[k] == s[..i][k + 1];
        }
      }
      SplitFirst(s[1..], i - 1);
      assert s[..i] == [s[0]] + s[1..i];
    }
  }

  /** The last piece is the text after the last space. */
  lemma {:induction false} SplitLast(s: string, j: nat)
    requires j < |s| && s[j] == ' ' && ' ' !in s[j + 1..]
    ensures Split(s)[|Split(s)| - 1] == s[j + 1..]
  {
    var rest := Split(s[1..]);
    if j == 0 {
      SplitNoSpace(s[1..]);
    } else {
      assert s[1..][j - 1 + 1..] == s[j + 1..];
      SplitLast(s[1..], j - 1);
      assert |rest| >= 2 by {
        SplitCount(s[1..], j - 1);
      }
    }
  }

  /** A space in the text means at least two pieces. */
  lemma {:induction false} SplitCount(s: string, j: nat)
    requires j < |s| && s[j] == ' '
    ensures |Split(s)| >= 2
  {
    if j > 0 {
      SplitCount(s[1..], j - 1);
    }
  }

  /** `charAt(0)`: the first character as text, empty for empty text. */
  function FirstChar(s: string): (r: string)
    ensures |r| == (if s == [] then 0 else 1)
    ensures r <= s
  {
    if s == [] then "" else s[..1]
  }

  /** `getInitials`: nothing for a missing or empty name; for one piece
      its first character; otherwise the first characters of the first
      and the last piece; upper-cased. */
  function Initials(name: Option<string>): (r: string)
    ensures |r| <= 2
    ensures forall i | 0 <= i < |r| :: !IsLower(r[i])
    ensures name == None || name == Some("") ==> r == ""
  {
    if name == None || name.value == "" then ""
    else
      var parts := Split(name.value);
      if |parts| == 1 then Upper(FirstChar(parts[0]))
      else Upper(FirstChar(parts[0]) + FirstChar(parts[|parts| - 1]))
  }

  /** A name without a space yields its first character, upper-cased. */
  lemma InitialsOneWord(name: string)
    requires name != "" && ' ' !in name
    ensures Initials(Some(name)) == Upper([name[0]])
  {
    SplitNoSpace(name);
  }

  /** A name with a space yields the first characters of the text before
      the first space and of the text after the last space, upper-cased;
      the pieces in between are ignored, and an empty first or last piece
      contributes nothing. */
  lemma InitialsSeveralWords(name: string, i: nat, j: nat)
    requires i <= j < |name| && name[i] == ' ' && name[j] == ' '
    requires ' ' !in name[..i] && ' ' !in name[j + 1..]
    ensures Initials(Some(name)) == Upper(FirstChar(name[..i]) + FirstChar(name[j + 1..]))
  {
    SplitFirst(name, i);
    SplitLast(name, j);
  }

  /** Middle names make no difference. */
  lemma InitialsIgnoreMiddle(first: string, middle: string, last: string)
    requires ' ' !in first && ' ' !in last
    ensures Initials(Some(first + " " + middle + " " + last)) == Initials(Some(first + " " + last))
  {
    var long := first + " " + middle + " " + last;
    var short := first + " " + last;
    assert long[..|first|] == first && short[..|first|] == first;
    var j := |long| - |last| - 1;
    assert long[j + 1..] == last && short[|first| + 1..] == last;
    InitialsSeveralWords(long, |first|, j);
    InitialsSeveralWords(short, |first|, |first|);
  }
}
