/** The string stack of stack/stack.go. The mutex that guards it is left
    out; the stack is modelled single-threaded. */
module Stack {
  import opened Wrappers

  const EmptyStack := "Empty Stack"

  /** What `Pop` does to the contents `s`: the contents left, the value
      returned and the error. */
  function Popped(s: seq<string>): (r: (seq<string>, string, Option<string>))
    ensures r.2.None? <==> s != []
    ensures r.2.None? ==> s == r.0 + [r.1]
    ensures r.2.Some? ==> r.0 == s && r.1 == "" && r.2 == Some(EmptyStack)
  {
    if |s| == 0 then (s, "", Some(EmptyStack))
    else (s[..|s| - 1], s[|s| - 1], None)
  }

  /** Pop after Push gives back the pushed value and the old contents. */
  lemma PushThenPop(s: seq<string>, v: string)
    ensures Popped(s + [v]) == (s, v, None)
  {
    assert (s + [v])[..|s|] == s;
  }

  /** Pushing values one by one and popping them brings them back in
      reverse order. */
  lemma {:induction false} PopsReverse(s: seq<string>, vs: seq<string>)
    ensures PopAll(s + vs, |vs|) == (s, Reverse(vs))
    decreases |vs|
  {
    if vs != [] {
      var last := vs[|vs| - 1];
      var init := vs[..|vs| - 1];
      assert s + vs == (s + init) + [last];
      PushThenPop(s + init, last);
      PopsReverse(s, init);
      assert |init| == |vs| - 1;
      var (left, rest) := PopAll(s + init, |init|);
      assert PopAll(s + vs, |vs|) == (left, [last] + rest);
      assert Reverse(vs) == [last] + Reverse(init);
    } else {
      assert s + vs == s;
    }
  }

  function Reverse(vs: seq<string>): seq<string>
    decreases |vs|
  {
    if vs == [] then [] else [vs[|vs| - 1]] + Reverse(vs[..|vs| - 1])
  }

  /** Pops `n` times, collecting the values in the order they come off. */
  function PopAll(s: seq<string>, n: nat): (seq<string>, seq<string>)
    decreases n
  {
    if n == 0 then (s, [])
    else
      var (rest, v, _) := Popped(s);
      var (left, vs) := PopAll(rest, n - 1);
      (left, [v] + vs)
  }

  class Stack {
    var s: seq<string>

    constructor New()
      ensures s == []
    {
      s := [];
    }

    method Push(v: string)
      modifies this
      ensures s == old(s) + [v]
    {
      s := s + [v];
    }

    /** On an empty stack, the error `Empty Stack` and no change; otherwise
        the top value, removed. */
    method Pop() returns (res: string, err: Option<string>)
      modifies this
      ensures (s, res, err) == Popped(old(s))
    {
      var l := |s|;
      if l == 0 {
        return "", Some(EmptyStack);
      }
      res := s[l - 1];
      s := s[..l - 1];
      return res, None;
    }

    method Empty() returns (b: bool)
      ensures b <==> s == []
    {
      var l := |s|;
      return l == 0;
    }
  }

  /** The behaviour the stack's tests describe: new stacks are empty, a
      push makes them non-empty, an empty pop fails, and values come back
      last in, first out. */
  method Scenario() returns (emptyAtFirst: bool, emptyAfterPush: bool, first: string, second: string, third: Option<string>)
    ensures emptyAtFirst && !emptyAfterPush
    ensures first == "42" && second == "33" && third == Some(EmptyStack)
  {
    var st := new Stack.New();
    emptyAtFirst := st.Empty();
    st.Push("33");
    st.Push("42");
    emptyAfterPush := st.Empty();
    var err;
    first, err := st.Pop();
    second, err := st.Pop();
    var ignored;
    ignored, third := st.Pop();
  }
}
