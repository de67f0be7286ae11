/** Small shared datatypes. */
module Basics {

  datatype Option<+T> = None | Some(value: T)

  /** What a generated identifier is drawn for. */
  datatype Role = ForTask | ForEvent | ForMessage | ForInstance | ForExecution | ForConflict

  /**
    An identifier is either chosen by the user or a generated UUID. A UUID is named by the task (or
    replay) that drew it, what it was drawn for and the schedule id it belongs to, so two
    draws never collide with each other nor with a chosen name.
   */
  datatype Name =
    | Chosen(text: string)
    | Drawn(source: nat, role: Role, number: nat)

  ghost predicate Increasing(at: seq<nat>) {
    forall i, j :: 0 <= i < j < |at| ==> at[i] < at[j]
  }

  /** The elements at the positions `at`, in order, are all wanted. */
  ghost predicate Picked<T>(all: seq<T>, wanted: T -> bool, kept: seq<T>, at: seq<nat>) {
    && |at| == |kept|
    && Increasing(at)
    && (forall i :: 0 <= i < |at| ==> at[i] < |all| && kept[i] == all[at[i]] && wanted(kept[i]))
  }

  /** No wanted element is at another position. */
  ghost predicate Covers<T>(all: seq<T>, wanted: T -> bool, at: seq<nat>) {
    forall k :: 0 <= k < |all| && wanted(all[k]) ==> exists i :: 0 <= i < |at| && at[i] == k
  }

  /** Exactly the wanted elements, in order. */
  ghost predicate Filtered<T>(all: seq<T>, wanted: T -> bool, kept: seq<T>) {
    exists at :: Picked(all, wanted, kept, at) && Covers(all, wanted, at)
  }

  /** The positions moved on by one, and the first if `taken`. */
  function Shifted(at: seq<nat>, taken: bool): (moved: seq<nat>)
    ensures |moved| == |at| + if taken then 1 else 0
    ensures forall i :: 0 <= i < |moved| ==>
              moved[i] == if !taken then at[i] + 1 else if i == 0 then 0 else at[i - 1] + 1
  {
    (if taken then [0] else []) + seq(|at|, i requires 0 <= i < |at| => at[i] + 1)
  }

  lemma CoversMore<T>(all: seq<T>, wanted: T -> bool, at: seq<nat>)
    requires all != [] && Covers(all[1..], wanted, at)
    ensures Covers(all, wanted, Shifted(at, wanted(all[0])))
  {
    var taken := wanted(all[0]);
    var moved := Shifted(at, taken);
    forall k | 0 <= k < |all| && wanted(all[k])
      ensures exists i :: 0 <= i < |moved| && moved[i] == k
    {
      if k == 0 {
        assert moved[0] == k;
      } else {
        assert all[k] == all[1..][k - 1];
        var i :| 0 <= i < |at| && at[i] == k - 1;
        assert moved[if taken then i + 1 else i] == k;
      }
    }
  }

  lemma ShiftedIncreases(at: seq<nat>, taken: bool)
    requires Increasing(at)
    ensures Increasing(Shifted(at, taken))
  {
  }

  lemma PickedMore<T>(all: seq<T>, wanted: T -> bool, kept: seq<T>, at: seq<nat>)
    requires all != [] && Picked(all[1..], wanted, kept, at)
    ensures Picked(all, wanted, (if wanted(all[0]) then [all[0]] else []) + kept, Shifted(at, wanted(all[0])))
  {
    hide Increasing;
    var taken := wanted(all[0]);
    ShiftedIncreases(at, taken);
    var moved, own := Shifted(at, taken), (if taken then [all[0]] else []) + kept;
    forall i | 0 <= i < |moved|
      ensures moved[i] < |all| && own[i] == all[moved[i]] && wanted(own[i])
    {
      if !taken || i > 0 {
        var k := if taken then i - 1 else i;
        assert own[i] == kept[k] == all[1..][at[k]];
      }
    }
  }

  /** One more element in front. */
  lemma FilterMore<T>(all: seq<T>, wanted: T -> bool, kept: seq<T>)
    requires all != [] && Filtered(all[1..], wanted, kept)
    ensures Filtered(all, wanted, (if wanted(all[0]) then [all[0]] else []) + kept)
  {
    hide Covers, Picked;
    var at :| Picked(all[1..], wanted, kept, at) && Covers(all[1..], wanted, at);
    CoversMore(all, wanted, at);
    PickedMore(all, wanted, kept, at);
  }

  lemma FilterNothing<T>(wanted: T -> bool)
    ensures Filtered([], wanted, [])
  {
    assert Picked([], wanted, [], []) && Covers([], wanted, []);
  }
}
