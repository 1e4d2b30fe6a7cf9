/**
 * The project gallery's card state: which card's description is expanded,
 * when the "Read more" toggle appears, and when the live-demo button shows.
 */
module Projects {
  import opened Wrappers

  datatype Project = Project(
    title: string,
    description: string,
    image: string,
    technologies: seq<string>,
    github: string,
    live: Option<string>)

  /** A description needs the toggle when it splits into more fields than this. */
  const FieldThreshold: nat := 20

  /** JavaScript's `s.split(sep)` for a one-character separator: every
      separator ends a field, so adjacent separators give an empty field and
      the empty string gives one empty field. */
  function Split(s: string, sep: char): (r: seq<string>)
    ensures |r| >= 1
    ensures forall i :: 0 <= i < |r| ==> sep !in r[i]
  {
    if s == [] then [""]
    else
      var rest := Split(s[1..], sep);
      if s[0] == sep then [""] + rest
      else [[s[0]] + rest[0]] + rest[1..]
  }

  /** The inverse of Split: the fields with one separator between neighbours. */
  function Join(parts: seq<string>, sep: char): string
    requires |parts| >= 1
  {
    if |parts| == 1 then parts[0] else parts[0] + [sep] + Join(parts[1..], sep)
  }

  function Count(s: string, c: char): nat
  {
    if s == [] then 0 else (if s[0] == c then 1 else 0) + Count(s[1..], c)
  }

  /** Splitting loses nothing: joining the fields gives the string back. */
  lemma {:induction false} JoinSplit(s: string, sep: char)
    ensures Join(Split(s, sep), sep) == s
  {
    if s != [] {
      var rest := Split(s[1..], sep);
      JoinSplit(s[1..], sep);
      if s[0] == sep {
        assert Split(s, sep) == [""] + rest;
        assert ([""] + rest)[1..] == rest;
      } else {
        var r := Split(s, sep);
        assert r == [[s[0]] + rest[0]] + rest[1..];
        if |rest| == 1 {
          assert r == [[s[0]] + rest[0]];
        } else {
          assert r[1..] == rest[1..];
          assert Join(rest, sep) == rest[0] + [sep] + Join(rest[1..], sep);
          assert Join(r, sep) == [s[0]] + rest[0] + [sep] + Join(rest[1..], sep);
        }
      }
    }
  }

  /** There is one field more than there are separators. */
  lemma {:induction false} SplitLength(s: string, sep: char)
    ensures |Split(s, sep)| == Count(s, sep) + 1
  {
    if s != [] {
      SplitLength(s[1..], sep);
    }
  }

  /** Splitting distributes over a separator: the fields of the text
      before it are followed by the fields of the text after it. */
  lemma {:induction false} SplitConcat(a: string, c: string, sep: char)
    ensures Split(a + [sep] + c, sep) == Split(a, sep) + Split(c, sep)
  {
    var s := a + [sep] + c;
    if a == [] {
      assert s == [sep] + c && s[1..] == c;
    } else {
      assert s[0] == a[0] && s[1..] == a[1..] + [sep] + c;
      SplitConcat(a[1..], c, sep);
      var left := Split(a[1..], sep);
      if a[0] != sep {
        assert (left + Split(c, sep))[0] == left[0];
        assert (left + Split(c, sep))[1..] == left[1..] + Split(c, sep);
      }
    }
  }

  /** Runs of separators produce empty fields: two adjacent separators,
      wherever they stand, leave an empty field between their neighbours. */
  lemma AdjacentSeparators(a: string, b: string, sep: char)
    ensures Split(a + [sep, sep] + b, sep) == Split(a, sep) + [""] + Split(b, sep)
  {
    assert a + [sep, sep] + b == a + [sep] + ([] + [sep] + b);
    SplitConcat(a, [] + [sep] + b, sep);
    SplitConcat([], b, sep);
  }

  /** An instance: the double space in a description gives an empty field. */
  lemma DoubleSpaceGivesEmptyField()
    ensures Split("a  b", ' ') == ["a", "", "b"]
  {
    assert "b"[1..] == [] && "b"[0] == 'b';
    assert Split([], ' ') == [""];
    assert ['b'] + "" == "b";
    assert Split("b", ' ') == ["b"];
    assert " b"[1..] == "b";
    assert Split(" b", ' ') == ["", "b"];
    assert "  b"[1..] == " b";
    assert Split("  b", ' ') == ["", "", "b"];
    assert "a  b"[1..] == "  b" && "a  b"[0] == 'a';
    assert ['a'] + "" == "a";
  }

  /** Whether a card shows the "Read more / Read less" button. */
  predicate ShowToggle(description: string)
  {
    |Split(description, ' ')| > FieldThreshold
  }

  /** The toggle shows exactly when the description holds at least twenty spaces. */
  lemma ShowToggleBySpaces(description: string)
    ensures ShowToggle(description) <==> Count(description, ' ') >= FieldThreshold
  {
    SplitLength(description, ' ');
  }

  /** The click handler of card i's toggle: collapse it if it is the
      expanded card, otherwise expand it (collapsing any other). */
  function ToggleExpanded(expanded: Option<nat>, i: nat): (r: Option<nat>)
    ensures r.None? <==> expanded == Some(i)
    ensures r.Some? ==> r.value == i
  {
    if expanded == Some(i) then None else Some(i)
  }

  /** Two clicks on the same card leave no card expanded, unless that card
      was expanded to begin with. */
  lemma ToggleTwice(expanded: Option<nat>, i: nat)
    ensures ToggleExpanded(ToggleExpanded(expanded, i), i) == if expanded == Some(i) then Some(i) else None
  {
  }

  /** Card i's description is clamped to two lines unless it is the expanded card. */
  predicate Clamped(expanded: Option<nat>, i: nat)
  {
    expanded != Some(i)
  }

  /** At most one card is unclamped. */
  lemma AtMostOneExpanded(expanded: Option<nat>, i: nat, j: nat)
    requires !Clamped(expanded, i) && !Clamped(expanded, j)
    ensures i == j
  {
  }

  /** The toggle's label. */
  function ToggleLabel(expanded: Option<nat>, i: nat): (r: string)
    ensures r == "Read less" <==> !Clamped(expanded, i)
    ensures r == "Read more" <==> Clamped(expanded, i)
  {
    if expanded == Some(i) then "Read less" else "Read more"
  }

  /** JavaScript truthiness of an optional string: it is present and is
      not the empty string. */
  predicate Truthy(s: Option<string>)
  {
    s.Some? && |s.value| > 0
  }

  /** The live-demo button's condition, written as the card tests it: the
      link is truthy and differs from the empty string. The second test is
      implied by the first, so the button shows exactly for a present,
      non-empty link. */
  predicate ShowLive(live: Option<string>)
    ensures ShowLive(live) <==> Truthy(live)
  {
    Truthy(live) && live != Some("")
  }

  /** The gallery's component state. */
  class Gallery {
    const projects: seq<Project>
    var expandedIndex: Option<nat>

    /** Only a card that has a toggle can be the expanded one. */
    ghost predicate Valid()
      reads this
    {
      expandedIndex.Some? ==>
        expandedIndex.value < |projects| && ShowToggle(projects[expandedIndex.value].description)
    }

    /** Mount: no card is expanded. */
    constructor (projects: seq<Project>)
      ensures Valid()
      ensures this.projects == projects && expandedIndex == None
    {
      this.projects := projects;
      expandedIndex := None;
    }

    /** A click on card i's toggle, which exists only when the card shows it. */
    method ClickToggle(i: nat)
      requires Valid()
      requires i < |projects| && ShowToggle(projects[i].description)
      modifies this
      ensures Valid()
      ensures expandedIndex == ToggleExpanded(old(expandedIndex), i)
    {
      expandedIndex := ToggleExpanded(expandedIndex, i);
    }
  }
}
