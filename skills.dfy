/** The skill chips: clicking a chip adds the skill to the selection when it
    is not there and removes it when it is. */
module Skills {

  /** No skill is listed twice. */
  ghost predicate NoDuplicates(s: seq<string>)
  {
    forall i, j :: 0 <= i < j < |s| ==> s[i] != s[j]
  }

  /** `s.filter((x) => x !== skill)`: every other entry, in order. */
  function Without(s: seq<string>, skill: string): seq<string>
  {
    if s == [] then []
    else if s[0] == skill then Without(s[1..], skill)
    else [s[0]] + Without(s[1..], skill)
  }

  /** The list after a click on the chip of `skill`. */
  function Toggle(s: seq<string>, skill: string): seq<string>
  {
    if skill in s then Without(s, skill) else s + [skill]
  }

  /** Filtering keeps exactly the entries different from `skill`. */
  lemma {:induction false} WithoutMembers(s: seq<string>, skill: string, x: string)
    ensures x in Without(s, skill) <==> x in s && x != skill
  {
    if s != [] {
      WithoutMembers(s[1..], skill, x);
      assert s == [s[0]] + s[1..];
    }
  }

  /** Filtering out an absent value gives the list back unchanged. */
  lemma {:induction false} WithoutAbsent(s: seq<string>, skill: string)
    requires skill !in s
    ensures Without(s, skill) == s
  {
    if s != [] {
      assert skill !in s[1..];
      WithoutAbsent(s[1..], skill);
      assert s == [s[0]] + s[1..];
    }
  }

  /** Filtering distributes over concatenation. */
  lemma {:induction false} WithoutAppend(a: seq<string>, b: seq<string>, skill: string)
    ensures Without(a + b, skill) == Without(a, skill) + Without(b, skill)
  {
    if a != [] {
      assert (a + b)[1..] == a[1..] + b;
      WithoutAppend(a[1..], b, skill);
    } else {
      assert a + b == b;
    }
  }

  /** Filtering never introduces a duplicate. */
  lemma {:induction false} WithoutNoDuplicates(s: seq<string>, skill: string)
    requires NoDuplicates(s)
    ensures NoDuplicates(Without(s, skill))
  {
    if s != [] {
      WithoutNoDuplicates(s[1..], skill);
      if s[0] != skill {
        WithoutMembers(s[1..], skill, s[0]);
        assert s[0] !in s[1..];
      }
    }
  }

  /** After the click the skill is selected exactly when it was not before. */
  lemma ToggleFlips(s: seq<string>, skill: string)
    ensures skill in Toggle(s, skill) <==> skill !in s
  {
    WithoutMembers(s, skill, skill);
  }

  /** Every other skill keeps its selection state. */
  lemma ToggleKeepsOthers(s: seq<string>, skill: string, other: string)
    requires other != skill
    ensures other in Toggle(s, skill) <==> other in s
  {
    WithoutMembers(s, skill, other);
  }

  /** A list without repeats stays without repeats. */
  lemma ToggleNoDuplicates(s: seq<string>, skill: string)
    requires NoDuplicates(s)
    ensures NoDuplicates(Toggle(s, skill))
  {
    if skill in s {
      WithoutNoDuplicates(s, skill);
    }
  }

  /** Adding a skill and removing it again gives back exactly the list. */
  lemma ToggleTwiceAbsent(s: seq<string>, skill: string)
    requires skill !in s
    ensures Toggle(Toggle(s, skill), skill) == s
  {
    WithoutAppend(s, [skill], skill);
    WithoutAbsent(s, skill);
    assert Without([skill], skill) == [];
  }

  /** Removing a skill and adding it again moves it to the end of the list. */
  lemma ToggleTwicePresent(s: seq<string>, skill: string)
    requires skill in s
    ensures Toggle(Toggle(s, skill), skill) == Without(s, skill) + [skill]
  {
    WithoutMembers(s, skill, skill);
  }
}
