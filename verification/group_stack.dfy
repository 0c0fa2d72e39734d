/** The resource-group stack.

    Each group is the ordered list of keys created while it was the top of the
    stack. Only the top group records; popping detaches the top group and hands
    it to the caller, after which the group below (if any) records again.
 */
module GroupStack {
  import opened CacheTypes

  type Stack = seq<seq<HashValue>>

  datatype Popped = Popped(rest: Stack, top: Option<seq<HashValue>>)

  /** A new, empty group becomes the recording one; the groups below are untouched. */
  function Push(s: Stack): (s': Stack)
    ensures |s'| == |s| + 1
    ensures s'[..|s|] == s
    ensures s'[|s|] == []
  {
    s + [[]]
  }

  /** Detach the top group; an empty stack yields no group and stays empty. */
  function Pop(s: Stack): (p: Popped)
    ensures |s| == 0 <==> p.top.None?
    ensures p.top.Some? ==> p.rest + [p.top.value] == s
    ensures p.top.None? ==> p.rest == s
  {
    if |s| == 0 then Popped(s, None) else Popped(s[..|s| - 1], Some(s[|s| - 1]))
  }

  /** Record a newly created key in the top group only (nothing records when the stack is empty). */
  function Record(s: Stack, k: HashValue): (s': Stack)
    ensures |s'| == |s|
    ensures |s| == 0 ==> s' == s
    ensures |s| > 0 ==> s'[..|s| - 1] == s[..|s| - 1] && s'[|s| - 1] == s[|s| - 1] + [k]
  {
    if |s| == 0 then s else s[|s| - 1 := s[|s| - 1] + [k]]
  }

  /** Pushing and immediately popping yields an empty group and the original stack. */
  lemma PopAfterPush(s: Stack)
    ensures Pop(Push(s)) == Popped(s, Some([]))
  {
  }

  /** Keys recorded while a group is on top are exactly what that group yields when popped,
      in creation order. */
  lemma {:induction false} RecordedKeysArePopped(s: Stack, ks: seq<HashValue>)
    ensures Pop(RecordAll(Push(s), ks)) == Popped(s, Some(ks))
    decreases |ks|
  {
    if |ks| == 0 {
      PopAfterPush(s);
    } else {
      var front := ks[..|ks| - 1];
      RecordedKeysArePopped(s, front);
      var t := RecordAll(Push(s), front);
      assert RecordAll(Push(s), ks) == Record(t, ks[|ks| - 1]);
      assert front + [ks[|ks| - 1]] == ks;
    }
  }

  /** Record a sequence of keys, one after another. */
  function RecordAll(s: Stack, ks: seq<HashValue>): (s': Stack)
    ensures |s'| == |s|
    ensures |s| == 0 ==> s' == s
    ensures |s| > 0 ==> s'[..|s| - 1] == s[..|s| - 1] && s'[|s| - 1] == s[|s| - 1] + ks
    decreases |ks|
  {
    if |ks| == 0 then s else Record(RecordAll(s, ks[..|ks| - 1]), ks[|ks| - 1])
  }
}
