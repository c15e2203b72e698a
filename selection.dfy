/**
 * The technique selection and its toggle (the technique cards' click handler,
 * App.tsx). A selection is a list of techniques; a click on a technique
 * removes it when it is selected and others are too, keeps the list as it is
 * when it is the only one, and appends it otherwise.
 */
module Selection {
  import opened Types

  /** No technique occurs twice. */
  predicate NoDuplicates(s: seq<TechniqueType>) {
    forall i, j :: 0 <= i < j < |s| ==> s[i] != s[j]
  }

  /** What every reachable selection satisfies: non-empty and without repetition. */
  predicate ValidSelection(s: seq<TechniqueType>) {
    |s| > 0 && NoDuplicates(s)
  }

  /** `prev.filter(t => t !== x)`: every occurrence of `x` dropped, the rest kept in order. */
  function Remove(s: seq<TechniqueType>, x: TechniqueType): (r: seq<TechniqueType>)
    ensures forall t :: t in r <==> t in s && t != x
    ensures |r| <= |s|
    decreases |s|
  {
    if s == [] then []
    else
      var last := s[|s| - 1];
      Remove(s[..|s| - 1], x) + (if last == x then [] else [last])
  }

  /**
   * The click handler's update of the selection. Afterwards `t` is selected
   * exactly when it was not, unless it was the only one; every other
   * technique is selected exactly when it was.
   */
  function Toggle(prev: seq<TechniqueType>, t: TechniqueType): (r: seq<TechniqueType>)
    ensures t in r <==> t !in prev || |prev| == 1
    ensures forall u :: u != t ==> (u in r <==> u in prev)
  {
    if t in prev then
      (if |prev| > 1 then Remove(prev, t) else prev)
    else
      prev + [t]
  }

  // ---------------------------------------------------------------------------
  // Facts about Remove

  /** Filtering out a technique that does not occur changes nothing. */
  lemma {:induction false} RemoveAbsent(s: seq<TechniqueType>, x: TechniqueType)
    requires x !in s
    ensures Remove(s, x) == s
    decreases |s|
  {
    if s != [] {
      RemoveAbsent(s[..|s| - 1], x);
    }
  }

  /** Filtering distributes over concatenation. */
  lemma {:induction false} RemoveAppend(a: seq<TechniqueType>, b: seq<TechniqueType>, x: TechniqueType)
    ensures Remove(a + b, x) == Remove(a, x) + Remove(b, x)
    decreases |b|
  {
    if b != [] {
      var last := b[|b| - 1];
      assert (a + b)[..|a + b| - 1] == a + b[..|b| - 1];
      RemoveAppend(a, b[..|b| - 1], x);
    } else {
      assert a + b == a;
    }
  }

  /** Appending a technique that is not yet in a repetition-free list keeps it repetition-free. */
  lemma AppendFresh(s: seq<TechniqueType>, t: TechniqueType)
    requires NoDuplicates(s) && t !in s
    ensures NoDuplicates(s + [t])
  {
    forall i, j | 0 <= i < j < |s + [t]| ensures (s + [t])[i] != (s + [t])[j] {
      if j == |s| {
        assert (s + [t])[i] == s[i];
      } else {
        assert (s + [t])[i] == s[i] && (s + [t])[j] == s[j];
      }
    }
  }

  /** Filtering keeps a list repetition-free. */
  lemma {:induction false} RemoveNoDuplicates(s: seq<TechniqueType>, x: TechniqueType)
    requires NoDuplicates(s)
    ensures NoDuplicates(Remove(s, x))
    decreases |s|
  {
    if s != [] {
      var init, last := s[..|s| - 1], s[|s| - 1];
      assert NoDuplicates(init) by {
        forall i, j | 0 <= i < j < |init| ensures init[i] != init[j] {
          assert init[i] == s[i] && init[j] == s[j];
        }
      }
      RemoveNoDuplicates(init, x);
      if last != x {
        assert last !in init by {
          forall i | 0 <= i < |init| ensures init[i] != last {
            assert init[i] == s[i];
          }
        }
        AppendFresh(Remove(init, x), last);
      }
    }
  }

  /**
   * In a repetition-free list, filtering out the technique at index `i`
   * removes exactly that position and keeps the others in order.
   */
  lemma RemoveAt(s: seq<TechniqueType>, i: nat)
    requires NoDuplicates(s) && i < |s|
    ensures Remove(s, s[i]) == s[..i] + s[i + 1..]
  {
    OccursOnce(s, i);
    assert s == s[..i] + [s[i]] + s[i + 1..];
    RemoveSplice(s[..i], s[i], s[i + 1..]);
  }

  /** In a repetition-free list the technique at index `i` occurs neither before nor after it. */
  lemma OccursOnce(s: seq<TechniqueType>, i: nat)
    requires NoDuplicates(s) && i < |s|
    ensures s[i] !in s[..i] && s[i] !in s[i + 1..]
  {
    var front, back := s[..i], s[i + 1..];
    forall j | 0 <= j < |front| ensures front[j] != s[i] {
      assert front[j] == s[j];
    }
    forall j | 0 <= j < |back| ensures back[j] != s[i] {
      assert back[j] == s[i + 1 + j];
    }
  }

  /** Filtering out a technique that occurs once, between `front` and `back`, leaves `front + back`. */
  lemma RemoveSplice(front: seq<TechniqueType>, x: TechniqueType, back: seq<TechniqueType>)
    requires x !in front && x !in back
    ensures Remove(front + [x] + back, x) == front + back
  {
    var fx := front + [x];
    assert Remove([x], x) == [] by {
      assert [x][..0] == [];
    }
    RemoveAppend(front, [x], x);
    RemoveAbsent(front, x);
    assert Remove(fx, x) == front;
    RemoveAppend(fx, back, x);
    RemoveAbsent(back, x);
  }

  // ---------------------------------------------------------------------------
  // Properties of the toggle

  /** The toggle keeps a selection non-empty and free of repetition. */
  lemma ToggleKeepsValid(prev: seq<TechniqueType>, t: TechniqueType)
    requires ValidSelection(prev)
    ensures ValidSelection(Toggle(prev, t))
  {
    if t in prev {
      if |prev| > 1 {
        RemoveNoDuplicates(prev, t);
        var i :| 0 <= i < |prev| && prev[i] == t;
        var other := if i == 0 then prev[1] else prev[0];
        assert other != t;
        assert other in Remove(prev, t);
      }
    } else {
      AppendFresh(prev, t);
    }
  }

  /**
   * The three outcomes of a click: the only selected technique stays
   * selected and nothing changes; an absent technique is appended at the
   * end; a selected technique among others is removed from its position and
   * the others keep their order.
   */
  lemma ToggleCases(prev: seq<TechniqueType>, t: TechniqueType) returns (i: nat)
    requires ValidSelection(prev)
    ensures prev == [t] ==> Toggle(prev, t) == prev
    ensures t !in prev ==> Toggle(prev, t) == prev + [t]
    ensures t in prev && |prev| > 1 ==> i < |prev| && prev[i] == t && Toggle(prev, t) == prev[..i] + prev[i + 1..]
  {
    i := 0;
    if t in prev && |prev| > 1 {
      i :| 0 <= i < |prev| && prev[i] == t;
      RemoveAt(prev, i);
    }
  }

  /** Clicking an absent technique twice gives back the selection it started from. */
  lemma ToggleTwiceRestores(prev: seq<TechniqueType>, t: TechniqueType)
    requires prev != [] && t !in prev
    ensures Toggle(Toggle(prev, t), t) == prev
  {
    assert t in prev + [t];
    RemoveAppend(prev, [t], t);
    RemoveAbsent(prev, t);
    assert Remove([t], t) == Remove([], t) + [];
  }
}
