/** Merging an agent's default skills with a task's own skills. */
module Skills {

  predicate NoDuplicates<T(==)>(s: seq<T>) {
    forall i, j :: 0 <= i < j < |s| ==> s[i] != s[j]
  }

  /** The elements of `s` that are not in `known` and occur for the first time, in order. */
  function FreshElements<T(==)>(s: seq<T>, known: set<T>): seq<T> {
    if s == [] then []
    else if s[0] in known then FreshElements(s[1..], known)
    else [s[0]] + FreshElements(s[1..], known + {s[0]})
  }

  function FirstOccurrences<T(==)>(s: seq<T>): seq<T> {
    FreshElements(s, {})
  }

  function Elements<T(==)>(s: seq<T>): set<T> {
    set x | x in s
  }

  function MergedSkills(defaults: seq<string>, taskSkills: seq<string>): seq<string> {
    FirstOccurrences(defaults + taskSkills)
  }

  /** One of the two passes: append the skills that were not seen yet. */
  method AppendUnseen(skills: seq<string>, seen0: set<string>, merged0: seq<string>)
    returns (seen: set<string>, merged: seq<string>)
    requires seen0 == Elements(merged0)
    ensures seen == Elements(merged)
    ensures merged == merged0 + FreshElements(skills, seen0)
  {
    seen, merged := seen0, merged0;
    for i := 0 to |skills|
      invariant seen == Elements(merged)
      invariant merged + FreshElements(skills[i..], seen) == merged0 + FreshElements(skills, seen0)
    {
      assert skills[i..][1..] == skills[i + 1..];
      if skills[i] !in seen {
        ElementsAppend(merged, skills[i]);
        seen := seen + {skills[i]};
        merged := merged + [skills[i]];
      }
    }
  }

  lemma ElementsAppend<T>(s: seq<T>, x: T)
    ensures Elements(s + [x]) == Elements(s) + {x}
  {
  }

  method MergeSkills(defaults: seq<string>, taskSkills: seq<string>) returns (merged: seq<string>)
    ensures merged == MergedSkills(defaults, taskSkills)
  {
    var seen: set<string> := {};
    merged := [];
    seen, merged := AppendUnseen(defaults, seen, merged);
    assert merged == FirstOccurrences(defaults);
    FreshElementsSound(defaults, {});
    assert seen == Elements(defaults);
    MergeSplits(defaults, taskSkills);
    seen, merged := AppendUnseen(taskSkills, seen, merged);
    assert merged == FirstOccurrences(defaults) + FreshElements(taskSkills, Elements(defaults));
  }

  lemma {:induction false} FreshElementsSound<T>(s: seq<T>, known: set<T>)
    ensures var r := FreshElements(s, known);
      && NoDuplicates(r)
      && Elements(r) == Elements(s) - known
  {
    if s != [] {
      FreshElementsSound(s[1..], if s[0] in known then known else known + {s[0]});
      assert Elements(s) == {s[0]} + Elements(s[1..]);
      if s[0] !in known {
        var tail := FreshElements(s[1..], known + {s[0]});
        assert s[0] !in Elements(tail);
        assert Elements([s[0]] + tail) == {s[0]} + Elements(tail);
      }
    }
  }

  /** Splitting the input: the second part contributes what neither `known` nor the first part has. */
  lemma {:induction false} FreshElementsAppend<T>(s: seq<T>, t: seq<T>, known: set<T>)
    ensures FreshElements(s + t, known) == FreshElements(s, known) + FreshElements(t, known + Elements(s))
  {
    if s == [] {
      assert s + t == t && known + Elements(s) == known;
    } else {
      assert (s + t)[1..] == s[1..] + t;
      var more := if s[0] in known then known else known + {s[0]};
      FreshElementsAppend(s[1..], t, more);
      assert more + Elements(s[1..]) == known + Elements(s);
    }
  }

  lemma {:induction false} FreshElementsFixed<T>(s: seq<T>, known: set<T>)
    requires NoDuplicates(s) && Elements(s) !! known
    ensures FreshElements(s, known) == s
  {
    if s != [] {
      assert s[0] in Elements(s) && Elements(s[1..]) <= Elements(s);
      assert s[0] !in Elements(s[1..]) by {
        forall i | 0 <= i < |s[1..]| ensures s[1..][i] != s[0] {
          assert s[1..][i] == s[i + 1];
        }
      }
      FreshElementsFixed(s[1..], known + {s[0]});
    }
  }

  /** The elements kept depend on `known` only where the input meets it. */
  lemma {:induction false} FreshOfFresh<T>(s: seq<T>, inner: set<T>, outer: set<T>)
    requires inner <= outer
    ensures FreshElements(FreshElements(s, inner), outer) == FreshElements(s, outer)
  {
    if s != [] {
      if s[0] in inner {
        FreshOfFresh(s[1..], inner, outer);
      } else {
        var kept := [s[0]] + FreshElements(s[1..], inner + {s[0]});
        assert kept[1..] == FreshElements(s[1..], inner + {s[0]});
        if s[0] in outer {
          assert inner + {s[0]} <= outer;
          FreshOfFresh(s[1..], inner + {s[0]}, outer);
        } else {
          FreshOfFresh(s[1..], inner + {s[0]}, outer + {s[0]});
        }
      }
    }
  }

  /** The merge keeps every skill once, and nothing else; defaults come first, in their own order. */
  lemma MergedSkillsSound(defaults: seq<string>, taskSkills: seq<string>)
    ensures var merged := MergedSkills(defaults, taskSkills);
      && NoDuplicates(merged)
      && Elements(merged) == Elements(defaults) + Elements(taskSkills)
      && FirstOccurrences(defaults) <= merged
      && merged[|FirstOccurrences(defaults)|..] == FreshElements(taskSkills, Elements(defaults))
  {
    FreshElementsSound(defaults + taskSkills, {});
    assert Elements(defaults + taskSkills) == Elements(defaults) + Elements(taskSkills);
    MergeSplits(defaults, taskSkills);
  }

  lemma {:induction false} AllKnown<T>(s: seq<T>, known: set<T>)
    requires Elements(s) <= known
    ensures FreshElements(s, known) == []
  {
    if s != [] {
      assert s[0] in Elements(s) && Elements(s[1..]) <= Elements(s);
      AllKnown(s[1..], known);
    }
  }

  lemma MergeSplits(a: seq<string>, b: seq<string>)
    ensures MergedSkills(a, b) == FirstOccurrences(a) + FreshElements(b, Elements(a))
  {
    FreshElementsAppend(a, b, {});
    assert {} + Elements(a) == Elements(a);
  }

  /** Merging again what was already merged changes nothing. */
  lemma MergeIdempotent(defaults: seq<string>, taskSkills: seq<string>)
    ensures var merged := MergedSkills(defaults, taskSkills);
      MergedSkills(merged, taskSkills) == merged == MergedSkills(defaults, merged)
  {
    var all, merged := defaults + taskSkills, MergedSkills(defaults, taskSkills);
    FreshElementsSound(all, {});
    assert MergedSkills(merged, taskSkills) == merged by {
      FreshElementsFixed(merged, {});
      MergeSplits(merged, taskSkills);
      AllKnown(taskSkills, Elements(merged));
    }
    assert MergedSkills(defaults, merged) == merged by {
      MergeSplits(defaults, merged);
      MergeSplits(defaults, taskSkills);
      // The defaults drop out of the second copy, which leaves what the task added.
      FreshOfFresh(all, {}, Elements(defaults));
      FreshElementsAppend(defaults, taskSkills, Elements(defaults));
      AllKnown(defaults, Elements(defaults));
      assert Elements(defaults) + Elements(defaults) == Elements(defaults);
    }
  }

  lemma MergeAssociative(a: seq<string>, b: seq<string>, c: seq<string>)
    ensures MergedSkills(MergedSkills(a, b), c) == MergedSkills(a, MergedSkills(b, c))
  {
    MergeLeft(a, b, c);
    MergeRight(a, b, c);
  }

  lemma MergeLeft(a: seq<string>, b: seq<string>, c: seq<string>)
    ensures MergedSkills(MergedSkills(a, b), c) == MergedSkills(a, b) + FreshElements(c, Elements(MergedSkills(a, b)))
  {
    MergeSplits(MergedSkills(a, b), c);
    FreshOfFresh(a + b, {}, {});
  }

  lemma MergeRight(a: seq<string>, b: seq<string>, c: seq<string>)
    ensures MergedSkills(a, MergedSkills(b, c)) == MergedSkills(a, b) + FreshElements(c, Elements(MergedSkills(a, b)))
  {
    var fromB := FreshElements(b, Elements(a));
    var fromC := FreshElements(c, Elements(a) + Elements(b));
    assert MergedSkills(a, MergedSkills(b, c)) == FirstOccurrences(a) + (fromB + fromC) by {
      MergeSplits(a, MergedSkills(b, c));
      FreshOfFresh(b + c, {}, Elements(a));
      FreshElementsAppend(b, c, Elements(a));
    }
    assert MergedSkills(a, b) == FirstOccurrences(a) + fromB by {
      MergeSplits(a, b);
    }
    assert Elements(MergedSkills(a, b)) == Elements(a) + Elements(b) by {
      FreshElementsSound(a + b, {});
    }
  }
}
