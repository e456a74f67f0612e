/** The step history of a macro debugging session: the states a session can
    return to, and the stack that keeps them. */
module StateStacks {

  /** A window cursor position: 1-based line and 0-based byte column. */
  datatype Cursor = Cursor(line: int, col: int)

  /** A point to replay the macro from: an undo-tree sequence number paired
      with the cursor position of the target window at that point. */
  datatype State = State(changeRoot: int, cursorRoot: Cursor)

  /** One operation on a state stack; a history is a sequence of these. */
  datatype StackOp = PushOp(state: State) | PopOp

  /** The entries left by a pop: the last entry goes, but only while more
      than one remains, so the root is never discarded. */
  function Popped(s: seq<State>): (r: seq<State>)
    ensures r <= s
    ensures |s| > 1 ==> |r| == |s| - 1
    ensures |s| <= 1 ==> r == s
  {
    if |s| > 1 then s[..|s| - 1] else s
  }

  /** The current state: the last entry. */
  function Top(s: seq<State>): (r: State)
    requires |s| >= 1
  {
    s[|s| - 1]
  }

  /** The entries after one operation. */
  ghost function Step(s: seq<State>, op: StackOp): (r: seq<State>)
  {
    match op
    case PushOp(x) => s + [x]
    case PopOp => Popped(s)
  }

  /** The entries after a whole history of operations, applied left to right. */
  ghost function Apply(s: seq<State>, ops: seq<StackOp>): (r: seq<State>)
    decreases |ops|
  {
    if ops == [] then s else Apply(Step(s, ops[0]), ops[1..])
  }

  /** A reference definition of "the state k places below the top", read
      backwards through the history: a pop hides one more state, a push
      either is the answer or uncovers one; once the history is exhausted
      the answer is in the initial entries, and past their bottom it is the
      root, because a pop at the root removes nothing. */
  ghost function Unpopped(s: seq<State>, ops: seq<StackOp>, k: nat): (r: State)
    requires |s| >= 1
    decreases |ops|
  {
    if ops == [] then s[if k < |s| then |s| - 1 - k else 0]
    else match ops[|ops| - 1]
      case PopOp => Unpopped(s, ops[..|ops| - 1], k + 1)
      case PushOp(x) => if k == 0 then x else Unpopped(s, ops[..|ops| - 1], k - 1)
  }

  /** Running two histories one after the other is running their concatenation. */
  lemma {:induction false} ApplyAppend(s: seq<State>, a: seq<StackOp>, b: seq<StackOp>)
    ensures Apply(s, a + b) == Apply(Apply(s, a), b)
    decreases |a|
  {
    if a == [] {
      assert a + b == b;
    } else {
      assert (a + b)[0] == a[0];
      assert (a + b)[1..] == a[1..] + b;
      ApplyAppend(Step(s, a[0]), a[1..], b);
    }
  }

  /** Whatever the history, a non-empty stack stays non-empty and its first
      (root) entry survives. */
  lemma {:induction false} ApplyKeepsRoot(s: seq<State>, ops: seq<StackOp>)
    requires |s| >= 1
    ensures |Apply(s, ops)| >= 1
    ensures Apply(s, ops)[0] == s[0]
    decreases |ops|
  {
    if ops != [] {
      ApplyKeepsRoot(Step(s, ops[0]), ops[1..]);
    }
  }

  /** Every entry after a history was either there at the start or pushed by it. */
  lemma {:induction false} ApplyOnlyKnownStates(s: seq<State>, ops: seq<StackOp>)
    ensures forall x :: x in Apply(s, ops) ==> x in s || PushOp(x) in ops
    decreases |ops|
  {
    if ops != [] {
      var t := Step(s, ops[0]);
      ApplyOnlyKnownStates(t, ops[1..]);
      forall x | x in Apply(s, ops)
        ensures x in s || PushOp(x) in ops
      {
        assert x in t || PushOp(x) in ops[1..];
        if x in t && x !in s {
          assert ops[0] == PushOp(x);
        }
      }
    }
  }

  /** On a non-empty stack, a push followed by a pop leaves the stack as it
      was before the push. */
  lemma {:induction false} PushThenPopCancels(s: seq<State>, ops: seq<StackOp>, x: State)
    requires |s| >= 1
    ensures Apply(s, ops + [PushOp(x), PopOp]) == Apply(s, ops)
  {
    ApplyAppend(s, ops, [PushOp(x), PopOp]);
    ApplyKeepsRoot(s, ops);
    var a := Apply(s, ops);
    assert [PushOp(x), PopOp][1..] == [PopOp];
    assert Apply(a, [PushOp(x), PopOp]) == Apply(a + [x], [PopOp]);
    assert (a + [x])[..|a|] == a;
    assert Popped(a + [x]) == a;
  }

  /** The reference definition agrees with the stack: the state k places
      below the top (the root once k reaches past it) is Unpopped(s, ops, k). */
  lemma {:induction false} UnpoppedIsEntry(s: seq<State>, ops: seq<StackOp>, k: nat)
    requires |s| >= 1
    ensures |Apply(s, ops)| >= 1
    ensures var a := Apply(s, ops); Unpopped(s, ops, k) == a[if k < |a| then |a| - 1 - k else 0]
    decreases |ops|
  {
    ApplyKeepsRoot(s, ops);
    if ops != [] {
      var init, last := ops[..|ops| - 1], ops[|ops| - 1];
      assert ops == init + [last];
      ApplyAppend(s, init, [last]);
      var b := Apply(s, init);
      ApplyKeepsRoot(s, init);
      assert Apply(s, ops) == Step(b, last);
      match last
      case PopOp =>
        UnpoppedIsEntry(s, init, k + 1);
      case PushOp(x) =>
        if k > 0 {
          UnpoppedIsEntry(s, init, k - 1);
        }
    }
  }

  /** The current state after any history is the most recently pushed state
      not yet popped, or the root when every push has been popped. */
  lemma {:induction false} CurrentIsLatestUnpopped(s: seq<State>, ops: seq<StackOp>)
    requires |s| >= 1
    ensures |Apply(s, ops)| >= 1
    ensures Top(Apply(s, ops)) == Unpopped(s, ops, 0)
  {
    UnpoppedIsEntry(s, ops, 0);
  }

  /** A push makes the pushed state current, whatever came before. */
  lemma {:induction false} PushIsCurrent(s: seq<State>, ops: seq<StackOp>, x: State)
    ensures |Apply(s, ops + [PushOp(x)])| >= 1
    ensures Top(Apply(s, ops + [PushOp(x)])) == x
  {
    ApplyAppend(s, ops, [PushOp(x)]);
  }

  /** The stack of states of one session (StateStack in the plugin). */
  class StateStack {
    var entries: seq<State>

    /** The stack is never empty. */
    ghost predicate Valid()
      reads this
    {
      |entries| >= 1
    }

    /** A new stack holds exactly the root state, which is then current. */
    constructor (state: State)
      ensures Valid()
      ensures entries == [state]
      ensures Current() == state
    {
      entries := [state];
    }

    /** Appends a state; it becomes current and the earlier entries are kept. */
    method Push(state: State)
      requires Valid()
      modifies this
      ensures Valid()
      ensures entries == Step(old(entries), PushOp(state))
      ensures entries[..|old(entries)|] == old(entries)
      ensures Current() == state
    {
      entries := entries + [state];
    }

    /** Removes the last state unless it is the only one. */
    method Pop()
      requires Valid()
      modifies this
      ensures Valid()
      ensures entries == Step(old(entries), PopOp)
      ensures entries[0] == old(entries)[0]
      ensures |old(entries)| == 1 ==> entries == old(entries)
    {
      if |entries| > 1 {
        entries := entries[..|entries| - 1];
      }
    }

    /** The current state: the last entry, which by CurrentIsLatestUnpopped
        is the latest push not yet popped, or the root. */
    function Current(): (r: State)
      reads this
      requires Valid()
      ensures r in entries
      ensures r == entries[|entries| - 1]
    {
      Top(entries)
    }
  }
}
