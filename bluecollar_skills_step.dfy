/**
 * The blue-collar skills component: each offered skill is a button that
 * toggles its membership in `formData.skills`, and an input sets
 * `formData.otherSkill`.  Its next and back buttons are unconditional.
 */
module BlueCollarSkillsStep {
  import opened Forms

  /** `s.filter(y => y !== x)` */
  function RemoveAll(s: seq<string>, x: string): (r: seq<string>)
    ensures x !in r
    ensures forall y :: y != x ==> (y in r <==> y in s)
    ensures |r| <= |s|
    decreases |s|
  {
    if s == [] then []
    else (if s[0] == x then [] else [s[0]]) + RemoveAll(s[1..], x)
  }

  /** Removing a value that does not occur changes nothing. */
  lemma {:induction false} RemoveAllAbsent(s: seq<string>, x: string)
    requires x !in s
    ensures RemoveAll(s, x) == s
    decreases |s|
  {
    if s != [] {
      RemoveAllAbsent(s[1..], x);
      assert s == [s[0]] + s[1..];
    }
  }

  /** The filter distributes over concatenation. */
  lemma {:induction false} RemoveAllAppend(s: seq<string>, t: seq<string>, x: string)
    ensures RemoveAll(s + t, x) == RemoveAll(s, x) + RemoveAll(t, x)
    decreases |s|
  {
    if s != [] {
      RemoveAllAppend(s[1..], t, x);
      assert (s + t)[1..] == s[1..] + t;
    } else {
      assert s + t == t;
    }
  }

  /** No value occurs twice. */
  predicate NoDuplicates(s: seq<string>) {
    forall i, j :: 0 <= i < j < |s| ==> s[i] != s[j]
  }

  /** The filter keeps a duplicate-free list duplicate-free. */
  lemma {:induction false} RemoveAllNoDuplicates(s: seq<string>, x: string)
    requires NoDuplicates(s)
    ensures NoDuplicates(RemoveAll(s, x))
    decreases |s|
  {
    if s != [] {
      assert NoDuplicates(s[1..]) by {
        forall i, j | 0 <= i < j < |s[1..]|
          ensures s[1..][i] != s[1..][j]
        {
          assert s[1..][i] == s[i + 1] && s[1..][j] == s[j + 1];
        }
      }
      RemoveAllNoDuplicates(s[1..], x);
      var rest := RemoveAll(s[1..], x);
      if s[0] != x {
        assert s[0] !in s[1..] by {
          forall k | 0 <= k < |s[1..]|
            ensures s[1..][k] != s[0]
          {
            assert s[1..][k] == s[k + 1];
          }
        }
        assert s[0] !in rest;
        var r := [s[0]] + rest;
        forall i, j | 0 <= i < j < |r|
          ensures r[i] != r[j]
        {
          if i == 0 {
            assert r[j] == rest[j - 1];
          } else {
            assert r[i] == rest[i - 1] && r[j] == rest[j - 1];
          }
        }
      }
    }
  }

  /** `handleSkillToggle`'s list: without the skill if it was there, else with it appended. */
  function Toggle(skills: seq<string>, skill: string): (r: seq<string>)
    ensures skill in r <==> skill !in skills
    ensures forall y :: y != skill ==> (y in r <==> y in skills)
    ensures skill !in skills ==> r == skills + [skill]
    ensures skill in skills ==> r == RemoveAll(skills, skill)
  {
    if skill in skills then RemoveAll(skills, skill) else skills + [skill]
  }

  /** Toggling an absent skill twice gives back the list. */
  lemma ToggleTwice(skills: seq<string>, skill: string)
    requires skill !in skills
    ensures Toggle(Toggle(skills, skill), skill) == skills
  {
    RemoveAllAppend(skills, [skill], skill);
    RemoveAllAbsent(skills, skill);
    assert RemoveAll([skill], skill) == [];
  }

  /** After a toggle, removing the skill gives the same as removing it before. */
  lemma ToggleThenRemove(skills: seq<string>, skill: string)
    ensures RemoveAll(Toggle(skills, skill), skill) == RemoveAll(skills, skill)
  {
    if skill in skills {
      RemoveAllAbsent(RemoveAll(skills, skill), skill);
    } else {
      RemoveAllAppend(skills, [skill], skill);
      assert RemoveAll([skill], skill) == [];
    }
  }

  /** A toggle keeps a duplicate-free list duplicate-free. */
  lemma ToggleNoDuplicates(skills: seq<string>, skill: string)
    requires NoDuplicates(skills)
    ensures NoDuplicates(Toggle(skills, skill))
  {
    if skill in skills {
      RemoveAllNoDuplicates(skills, skill);
    } else {
      var r := skills + [skill];
      forall i, j | 0 <= i < j < |r|
        ensures r[i] != r[j]
      {
        if j == |skills| {
          assert r[i] == skills[i];
        }
      }
    }
  }

  /** `handleSkillToggle(skill)`: the new `formData` differs only in `skills`. */
  function HandleSkillToggle(fd: FormData, skill: string): (next: FormData)
    requires HasSkills(fd)
    ensures SameExcept(fd, next, "skills") && HasSkills(next)
    ensures skill in SkillsOf(next) <==> skill !in SkillsOf(fd)
    ensures SkillsOf(next) == Toggle(SkillsOf(fd), skill)
  {
    Put(fd, "skills", Strs(Toggle(SkillsOf(fd), skill)))
  }

  /** The "other" input: only `otherSkill` changes. */
  function SetOtherSkill(fd: FormData, value: string): (next: FormData)
    ensures SameExcept(fd, next, "otherSkill") && next["otherSkill"] == Str(value)
  {
    Put(fd, "otherSkill", Str(value))
  }
}
