/** Splitting the session's question list into the objective items and the
    writing item (app.py:124-125). An item is a writing item when its `type`
    label contains the tag "쓰기". */
module Partition {
  import opened Wrappers
  import opened Quiz

  const WritingTag: string := "쓰기"

  /** `sub` occurs in `s` as a contiguous piece (Python's `in` on strings):
      it is a prefix of `s` or occurs in the rest of `s`. */
  predicate Contains(s: string, sub: string) {
    sub <= s || (s != [] && Contains(s[1..], sub))
  }

  /** `Contains` agrees with the positional reading of substring search:
      `sub` starts at some position of `s`. */
  lemma {:induction false} ContainsAt(s: string, sub: string)
    ensures Contains(s, sub) <==> exists i :: 0 <= i <= |s| && sub <= s[i..]
  {
    if sub <= s {
      assert sub <= s[0..];
    } else if s == [] {
      assert forall i :: 0 <= i <= |s| ==> s[i..] == s;
    } else {
      ContainsAt(s[1..], sub);
      if Contains(s[1..], sub) {
        var i :| 0 <= i <= |s[1..]| && sub <= s[1..][i..];
        assert s[1..][i..] == s[i + 1..];
      }
      if i :| 0 <= i <= |s| && sub <= s[i..] {
        assert s[0..] == s;
        assert i > 0;
        assert s[1..][i - 1..] == s[i..];
      }
    }
  }

  /** The test of the objective comprehension: the label is not the tag and
      does not contain it. */
  predicate IsObjective(q: Question) {
    q.kind != WritingTag && !Contains(q.kind, WritingTag)
  }

  /** The test of the writing comprehension: the label is the tag or contains it. */
  predicate IsWritingItem(q: Question) {
    q.kind == WritingTag || Contains(q.kind, WritingTag)
  }

  /** The objective items, in list order. */
  function Objective(qs: seq<Question>): seq<Question> {
    if qs == [] then []
    else (if IsObjective(qs[0]) then [qs[0]] else []) + Objective(qs[1..])
  }

  /** The writing items, in list order. */
  function WritingItems(qs: seq<Question>): seq<Question> {
    if qs == [] then []
    else (if IsWritingItem(qs[0]) then [qs[0]] else []) + WritingItems(qs[1..])
  }

  /** Element 0 of the writing items; None where indexing would raise. */
  function FirstWriting(qs: seq<Question>): Option<Question> {
    var ws := WritingItems(qs);
    if |ws| == 0 then None else Some(ws[0])
  }

  /** The two comprehension tests are each other's negation. */
  lemma ObjectiveIffNotWriting(q: Question)
    ensures IsObjective(q) <==> !IsWritingItem(q)
  {
  }

  /** A question is an objective item exactly when it is in the list and
      passes the objective test. */
  lemma {:induction false} ObjectiveMembers(qs: seq<Question>, q: Question)
    ensures q in Objective(qs) <==> q in qs && IsObjective(q)
  {
    if qs != [] {
      ObjectiveMembers(qs[1..], q);
      assert qs == [qs[0]] + qs[1..];
    }
  }

  /** The objective list keeps the input order: splitting the input splits
      the output at the same place. */
  lemma {:induction false} ObjectiveAppend(a: seq<Question>, b: seq<Question>)
    ensures Objective(a + b) == Objective(a) + Objective(b)
  {
    if a != [] {
      assert (a + b)[1..] == a[1..] + b;
      ObjectiveAppend(a[1..], b);
    } else {
      assert a + b == b;
    }
  }

  /** The writing list keeps the input order as well. */
  lemma {:induction false} WritingItemsAppend(a: seq<Question>, b: seq<Question>)
    ensures WritingItems(a + b) == WritingItems(a) + WritingItems(b)
  {
    if a != [] {
      assert (a + b)[1..] == a[1..] + b;
      WritingItemsAppend(a[1..], b);
    } else {
      assert a + b == b;
    }
  }

  /** Every question goes to exactly one of the two lists. */
  lemma {:induction false} PartitionCovers(qs: seq<Question>)
    ensures multiset(Objective(qs)) + multiset(WritingItems(qs)) == multiset(qs)
  {
    if qs != [] {
      PartitionCovers(qs[1..]);
      ObjectiveIffNotWriting(qs[0]);
      assert qs == [qs[0]] + qs[1..];
    }
  }

  /** The objective list holds each objective question as often as the
      input does, and no other question. */
  lemma {:induction false} ObjectiveCount(qs: seq<Question>, q: Question)
    ensures multiset(Objective(qs))[q] == if IsObjective(q) then multiset(qs)[q] else 0
  {
    if qs != [] {
      ObjectiveCount(qs[1..], q);
      assert qs == [qs[0]] + qs[1..];
    }
  }

  /** Shuffling the list does not change which objective items there are. */
  lemma ObjectiveOfShuffle(p: seq<Question>, qs: seq<Question>)
    requires multiset(p) == multiset(qs)
    ensures multiset(Objective(p)) == multiset(Objective(qs))
  {
    forall q ensures multiset(Objective(p))[q] == multiset(Objective(qs))[q] {
      ObjectiveCount(p, q);
      ObjectiveCount(qs, q);
    }
  }

  /** The partition fails exactly when no question is a writing item. */
  lemma {:induction false} FirstWritingNone(qs: seq<Question>)
    ensures FirstWriting(qs).None? <==> forall i :: 0 <= i < |qs| ==> !IsWritingItem(qs[i])
  {
    if qs != [] {
      FirstWritingNone(qs[1..]);
      assert forall i :: 1 <= i < |qs| ==> qs[i] == qs[1..][i - 1];
    }
  }

  /** The writing item chosen is the first writing item of the list. */
  lemma {:induction false} FirstWritingAt(qs: seq<Question>, i: int)
    requires 0 <= i < |qs| && IsWritingItem(qs[i])
    requires forall j :: 0 <= j < i ==> !IsWritingItem(qs[j])
    ensures FirstWriting(qs) == Some(qs[i])
  {
    if i > 0 {
      FirstWritingAt(qs[1..], i - 1);
    }
  }

  /** Shuffling the list does not change whether the partition succeeds. */
  lemma FirstWritingOfShuffle(p: seq<Question>, qs: seq<Question>)
    requires multiset(p) == multiset(qs)
    ensures FirstWriting(p).Some? <==> FirstWriting(qs).Some?
  {
    FirstWritingNone(p);
    FirstWritingNone(qs);
    if !FirstWriting(p).None? {
      var i :| 0 <= i < |p| && IsWritingItem(p[i]);
      assert p[i] in multiset(qs);
    }
    if !FirstWriting(qs).None? {
      var i :| 0 <= i < |qs| && IsWritingItem(qs[i]);
      assert qs[i] in multiset(p);
    }
  }
}
