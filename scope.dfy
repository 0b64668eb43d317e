/** The scope stack of src/runtime/scope.rs: a stack of frames, each a map from names to
    values, whose last frame is the innermost. `new` starts with the global frame. */
module ScopeStack {
  import opened Wrappers
  import opened Ast

  type Frame = map<string, Literal>

  /** `set` unwraps the innermost frame, which panics when there is none. */
  datatype ScopeError = NoFrame

  /** The search of `get`: the frames from the innermost outwards, and the first binding of
      `name` found. */
  function Lookup(frames: seq<Frame>, name: string): Option<Literal>
    decreases |frames|
  {
    if |frames| == 0 then None
    else if name in frames[|frames| - 1] then Some(frames[|frames| - 1][name])
    else Lookup(frames[..|frames| - 1], name)
  }

  /** Frame `k` binds `name`, and no frame inside it does. */
  predicate InnermostIn(frames: seq<Frame>, name: string, k: int)
  {
    0 <= k < |frames| && name in frames[k] && forall j :: k < j < |frames| ==> name !in frames[j]
  }

  /** `Lookup` finds nothing exactly when no frame binds the name, and otherwise finds the
      binding of the innermost frame that has one. */
  lemma {:induction false} LookupIsInnermost(frames: seq<Frame>, name: string)
    ensures Lookup(frames, name).None? <==> forall k :: 0 <= k < |frames| ==> name !in frames[k]
    ensures forall k :: InnermostIn(frames, name, k) ==> Lookup(frames, name) == Some(frames[k][name])
    decreases |frames|
  {
    if |frames| > 0 {
      var n := |frames| - 1;
      var outer := frames[..n];
      LookupIsInnermost(outer, name);
      forall k | InnermostIn(frames, name, k)
        ensures Lookup(frames, name) == Some(frames[k][name])
      {
        if name in frames[n] {
          assert k == n;
        } else {
          assert InnermostIn(outer, name, k);
        }
      }
    }
  }

  // ---------------------------------------------------------------------------------------
  // The stack after each operation

  /** After `enter`: one more, empty, frame. */
  function Entered(frames: seq<Frame>): seq<Frame>
  {
    frames + [map[]]
  }

  /** After `exit`: the innermost frame is gone; `Vec::pop` on an empty stack does nothing. */
  function Exited(frames: seq<Frame>): seq<Frame>
  {
    if |frames| == 0 then frames else frames[..|frames| - 1]
  }

  /** After a successful `set`: the innermost frame binds `name` to `value`. */
  function Assigned(frames: seq<Frame>, name: string, value: Literal): seq<Frame>
    requires |frames| > 0
  {
    frames[..|frames| - 1] + [frames[|frames| - 1][name := value]]
  }

  class Scope {
    var frames: seq<Frame>

    /** `Scope::new`: the global frame only. */
    constructor ()
      ensures frames == [map[]]
    {
      frames := [map[]];
    }

    /** `enter`. */
    method Enter()
      modifies this
      ensures frames == Entered(old(frames))
    {
      frames := frames + [map[]];
    }

    /** `exit`. */
    method Exit()
      modifies this
      ensures frames == Exited(old(frames))
    {
      if |frames| > 0 {
        frames := frames[..|frames| - 1];
      }
    }

    /** `get`. */
    function Get(name: string): (r: Option<Literal>)
      reads this
      ensures r.None? <==> forall k :: 0 <= k < |frames| ==> name !in frames[k]
      ensures forall k :: InnermostIn(frames, name, k) ==> r == Some(frames[k][name])
    {
      LookupIsInnermost(frames, name);
      Lookup(frames, name)
    }

    /** `set`: insert into, or overwrite in, the innermost frame. */
    method Set(name: string, value: Literal) returns (r: Outcome<ScopeError>)
      modifies this
      ensures |old(frames)| == 0 ==> r == Fail(NoFrame) && frames == old(frames)
      ensures |old(frames)| > 0 ==> r == Pass && frames == Assigned(old(frames), name, value)
    {
      if |frames| == 0 {
        return Fail(NoFrame);
      }
      var last := frames[|frames| - 1];
      frames := frames[..|frames| - 1] + [last[name := value]];
      return Pass;
    }
  }

  // ---------------------------------------------------------------------------------------
  // Properties

  /** Nothing is bound in a new scope. */
  lemma NewScopeBindsNothing(name: string)
    ensures Lookup([map[]], name) == None
  {
    var global: Frame := map[];
    assert name !in global;
  }

  /** `enter` adds one frame and changes no lookup; `exit` after `enter` restores the stack. */
  lemma EnterKeepsLookups(frames: seq<Frame>, name: string)
    ensures |Entered(frames)| == |frames| + 1
    ensures Lookup(Entered(frames), name) == Lookup(frames, name)
    ensures Exited(Entered(frames)) == frames
  {
    assert Entered(frames)[..|frames|] == frames;
  }

  /** After `set(name, value)`, `name` is bound to `value` and every other lookup is as
      before; only the innermost frame changes. */
  lemma SetThenGet(frames: seq<Frame>, name: string, value: Literal, other: string)
    requires |frames| > 0
    ensures Lookup(Assigned(frames, name, value), name) == Some(value)
    ensures other != name ==> Lookup(Assigned(frames, name, value), other) == Lookup(frames, other)
    ensures |Assigned(frames, name, value)| == |frames|
    ensures Assigned(frames, name, value)[..|frames| - 1] == frames[..|frames| - 1]
  {
    var n := |frames| - 1;
    assert Assigned(frames, name, value)[..n] == frames[..n];
  }

  /** A `set` in a newly entered frame hides the outer binding of the same name until
      `exit`, after which the outer binding is visible again. */
  lemma InnerShadowsOuter(frames: seq<Frame>, name: string, value: Literal)
    ensures Lookup(Assigned(Entered(frames), name, value), name) == Some(value)
    ensures Lookup(Exited(Assigned(Entered(frames), name, value)), name) == Lookup(frames, name)
  {
    assert Assigned(Entered(frames), name, value)[..|frames|] == frames;
  }

  /** The stack after a run of `set`s, in order. */
  function AssignedAll(frames: seq<Frame>, sets: seq<(string, Literal)>): seq<Frame>
    requires |frames| > 0
    ensures |AssignedAll(frames, sets)| == |frames|
    decreases |sets|
  {
    if |sets| == 0 then frames
    else AssignedAll(Assigned(frames, sets[0].0, sets[0].1), sets[1..])
  }

  /** A run of `set`s touches only the innermost frame. */
  lemma {:induction false} AssignedAllKeepsOuter(frames: seq<Frame>, sets: seq<(string, Literal)>)
    requires |frames| > 0
    ensures AssignedAll(frames, sets)[..|frames| - 1] == frames[..|frames| - 1]
    decreases |sets|
  {
    if |sets| > 0 {
      var next := Assigned(frames, sets[0].0, sets[0].1);
      assert next[..|frames| - 1] == frames[..|frames| - 1];
      AssignedAllKeepsOuter(next, sets[1..]);
    }
  }

  /** `enter`, any number of `set`s, then `exit` gives back the stack as it was, so every
      lookup is as before `enter`. */
  lemma EnterSetsExitRestores(frames: seq<Frame>, sets: seq<(string, Literal)>, name: string)
    ensures Exited(AssignedAll(Entered(frames), sets)) == frames
    ensures Lookup(Exited(AssignedAll(Entered(frames), sets)), name) == Lookup(frames, name)
  {
    AssignedAllKeepsOuter(Entered(frames), sets);
    assert Entered(frames)[..|frames|] == frames;
  }
}
