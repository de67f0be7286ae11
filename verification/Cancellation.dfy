/** The cancellation tree (internal/sync/context.go). */
module Cancellation {
  import opened Basics
  import opened History
  import opened Commands
  import opened Execution
  import opened Tidiness

  /** The fields of a context. */
  datatype Snapshot = Snapshot(
    children: set<CancelContext>,
    err: Option<Error>,
    cause: Option<Error>,
    done: bool,
    operations: seq<int>)

  /** The fields of all contexts. */
  type Picture = map<CancelContext, Snapshot>

  /**
    A cancelable context. `enclosing` is the innermost cancelable context it was derived from; a disconnected context
    is not attached to it. `operations` are the cancel callbacks waiting on its Done channel.
   */
  class CancelContext {
    const enclosing: CancelContext?
    const attached: bool
    ghost const depth: nat
    var children: set<CancelContext>
    var err: Option<Error>
    var cause: Option<Error>
    var done: bool
    var operations: seq<int>

    ghost function Fields(): Snapshot
      reads this
    {
      Snapshot(children, err, cause, done, operations)
    }

    /** NewDisconnectedContext: a context that cancellation of the enclosing one does not reach. */
    constructor Disconnected(parent: CancelContext?, ghost all: set<CancelContext>)
      requires (parent != null ==> parent in all) && Tree(Pictured(all))
      ensures enclosing == parent && !attached && fresh(this)
      ensures Fields() == Snapshot({}, None, None, false, []) && Tree(Pictured(all + {this}))
    {
      enclosing, attached, depth := parent, false, if parent == null then 0 else parent.depth + 1;
      children, err, cause, done, operations := {}, None, None, false, [];
      ghost var before := Pictured(all);
      new;
      WithChild(before, Pictured(all + {this}), this);
    }

    /** WithCancel: a context attached to its parent, or canceled with it if the parent is canceled already. */
    constructor (parent: CancelContext?, ghost all: set<CancelContext>)
      requires (parent != null ==> parent in all) && Tree(Pictured(all))
      modifies if parent != null then {parent} else {}
      ensures enclosing == parent && attached && fresh(this)
      ensures err == if parent == null then None else parent.err
      ensures cause == if parent == null then None else parent.cause
      ensures forall n :: n in all ==>
                n.Fields() == if n == parent && old(n.err).None?
                              then old(n.Fields()).(children := old(n.children) + {this}) else old(n.Fields())
      ensures Tree(Pictured(all + {this}))
    {
      enclosing, attached, depth := parent, true, if parent == null then 0 else parent.depth + 1;
      children, err, cause, done, operations := {}, None, None, false, [];
      new;
      ghost var before := Pictured(all);
      if parent != null {
        if parent.err.Some? {
          err, cause, done := parent.err, parent.cause, true;
        } else {
          parent.children := parent.children + {this};
        }
      }
      WithChild(before, Pictured(all + {this}), this);
    }

    /** Registers the cancel callback of an operation. */
    method Register(id: int)
      modifies this`operations
      ensures operations == old(operations) + [id]
    {
      operations := operations + [id];
    }

    /** Forgets a child (removeChild). */
    method RemoveChild(child: CancelContext)
      modifies this`children
      ensures Fields() == old(Fields()).(children := old(children) - {child})
    {
      children := children - {child};
    }

    /** Records error and cause and closes the Done channel, which runs the callbacks of the waiting operations. */
    method Close(error: Error, reason: Error) returns (closed: seq<int>)
      modifies this
      ensures closed == old(operations) && Fields() == Snapshot(old(children), Some(error), Some(reason), true, [])
    {
      err, cause, done := Some(error), Some(reason), true;
      closed := operations;
      operations := [];
    }

    /**
      Cancels this context and, in whatever order, its children. The result lists the
      operations whose callbacks ran.
     */
    method Cancel(removeFromParent: bool, error: Error, why: Option<Error>, ghost all: set<CancelContext>)
      returns (closed: seq<int>)
      requires this in all && Sound(this, Pictured(all))
      modifies all
      ensures CanceledBelow(old(Pictured(all)), Pictured(all), this, removeFromParent, error,
                            if why.Some? then why.value else error)
      ensures RanBelow(old(Pictured(all)), closed, this)
      decreases Open(Pictured(all))
    {
      hide Sound, Partly, Ran, CanceledBelow, RanBelow, Open, Below;
      ghost var was := Pictured(all);
      closed := [];
      if err.None? {
        var reason := if why.Some? then why.value else error;
        closed := Close(error, reason);
        Begun(was, Pictured(all), this, error, reason);
        var rest := children;
        ghost var visited: set<CancelContext> := {};
        while rest != {}
          invariant rest + visited == was[this].children && rest !! visited
          invariant Partly(was, Pictured(all), this, visited, error, reason)
          invariant Ran(was, closed, this, visited)
          invariant cause == Some(reason)
          decreases rest
        {
          var child :| child in rest;
          ghost var now, ran := Pictured(all), closed;
          StillSound(this, child, was, now, visited, error, reason);
          var more := child.Cancel(false, error, Some(cause.value), all);
          closed := closed + more;
          OneMore(was, now, Pictured(all), this, child, visited, error, reason, ran, more);
          rest := rest - {child};
          visited := visited + {child};
        }
        ghost var last := Pictured(all);
        EnclosingKnown(this, was);
        children := {};
        if removeFromParent && enclosing != null {
          enclosing.RemoveChild(this);
        }
        AllDone(was, last, Pictured(all), this, removeFromParent, error, reason, closed);
      } else {
        NothingToDo(this, was, removeFromParent, error, if why.Some? then why.value else error);
      }
    }
  }

  ghost function Pictured(all: set<CancelContext>): Picture
    reads all
  {
    map n | n in all :: n.Fields()
  }

  /** `n` is `c` or attached below it. */
  ghost predicate Below(c: CancelContext, n: CancelContext)
    decreases n.depth
  {
    n == c || (n.attached && n.enclosing != null && n.enclosing.depth < n.depth && Below(c, n.enclosing))
  }

  ghost predicate BelowAny(cs: set<CancelContext>, n: CancelContext) {
    exists c :: c in cs && Below(c, n)
  }

  ghost function Open(m: Picture): set<CancelContext> {
    set n | n in m && m[n].err.None?
  }

  /** All contexts that are reachable from the given ones are among them. */
  ghost predicate Closed(m: Picture) {
    forall n :: n in m ==> m[n].children <= m.Keys && (n.enclosing != null ==> n.enclosing in m && n.enclosing.depth < n.depth)
  }

  /** A context that is not canceled has its own attached contexts as children; a canceled one has none. */
  ghost predicate Linked(m: Picture, n: CancelContext)
    requires n in m
  {
    && (forall c :: c in m[n].children ==> c.attached && c.enclosing == n)
    && (m[n].err.Some? ==> m[n].children == {})
    && (m[n].err.None? ==> m[n].cause.None?)
  }

  /** A context that is not canceled is a child of the one above it, which is not canceled either. */
  ghost predicate Hangs(m: Picture, n: CancelContext)
    requires n in m
  {
    m[n].err.None? && n.attached && n.enclosing != null ==>
      n.enclosing in m && m[n.enclosing].err.None? && n in m[n.enclosing].children
  }

  ghost predicate Sound(c: CancelContext, m: Picture) {
    Closed(m) && forall n :: n in m && Below(c, n) ==> Linked(m, n) && (n != c ==> Hangs(m, n))
  }

  ghost predicate Tree(m: Picture) {
    Closed(m) && forall n :: n in m ==> Linked(m, n) && Hangs(m, n)
  }

  /**
    Exactly the contexts attached at or below `c` that were not canceled yet are now, for the given reason; the
    others are as they were, except that `c` may have left the children of its parent.
   */
  ghost predicate CanceledBelow(was: Picture, now: Picture, c: CancelContext, removeFromParent: bool, error: Error,
                                reason: Error)
    requires c in was
  {
    now.Keys == was.Keys &&
    forall n :: n in was ==>
      now[n] ==
      if was[n].err.None? && Below(c, n) then Snapshot({}, Some(error), Some(reason), true, [])
      else if removeFromParent && was[c].err.None? && n == c.enclosing then was[n].(children := was[n].children - {c})
      else was[n]
  }

  /** Exactly the callbacks registered with those contexts ran. */
  ghost predicate RanBelow(was: Picture, closed: seq<int>, c: CancelContext) {
    forall id :: id in closed <==> exists n :: n in was && was[n].err.None? && Below(c, n) && id in was[n].operations
  }

  /** The context is canceled, and so is everything open below the visited children. */
  ghost predicate Partly(was: Picture, now: Picture, c: CancelContext, visited: set<CancelContext>, error: Error,
                         reason: Error)
    requires c in was
  {
    && now.Keys == was.Keys
    && now[c] == Snapshot(was[c].children, Some(error), Some(reason), true, [])
    && forall n :: n in was && n != c ==>
         now[n] == if was[n].err.None? && BelowAny(visited, n) then Snapshot({}, Some(error), Some(reason), true, []) else was[n]
  }

  /** Exactly the callbacks of those contexts ran. */
  ghost predicate Ran(was: Picture, closed: seq<int>, c: CancelContext, visited: set<CancelContext>)
    requires c in was
  {
    forall id :: id in closed <==>
      id in was[c].operations || exists n :: n in was && was[n].err.None? && BelowAny(visited, n) && id in was[n].operations
  }

  lemma Begun(was: Picture, now: Picture, c: CancelContext, error: Error, reason: Error)
    requires c in was && now == was[c := Snapshot(was[c].children, Some(error), Some(reason), true, [])]
    ensures Partly(was, now, c, {}, error, reason) && Ran(was, was[c].operations, c, {})
  {
  }

  /** Canceling one more child. */
  lemma OneMore(was: Picture, now: Picture, after: Picture, c: CancelContext, child: CancelContext,
                visited: set<CancelContext>,
                error: Error, reason: Error, ran: seq<int>, more: seq<int>)
    requires c in was && Partly(was, now, c, visited, error, reason) && Ran(was, ran, c, visited) && child in now
    requires forall n :: n in was && Below(child, n) ==> n != c && !BelowAny(visited, n)
    requires CanceledBelow(now, after, child, false, error, reason) && RanBelow(now, more, child)
    ensures Partly(was, after, c, visited + {child}, error, reason) && Ran(was, ran + more, c, visited + {child})
    ensures after[c].cause == Some(reason)
  {
    forall n
      ensures BelowAny(visited + {child}, n) <==> BelowAny(visited, n) || Below(child, n)
    {
    }
  }

  /** All children are done. */
  lemma AllDone(was: Picture, last: Picture, now: Picture, c: CancelContext, removeFromParent: bool, error: Error,
                reason: Error,
                closed: seq<int>)
    requires c in was && Sound(c, was) && was[c].err.None? && Partly(was, last, c, was[c].children, error, reason)
    requires Ran(was, closed, c, was[c].children)
    requires now.Keys == last.Keys
    requires forall n :: n in last ==>
               now[n] == if n == c then last[n].(children := {})
                         else if removeFromParent && n == c.enclosing then last[n].(children := last[n].children - {c})
                         else last[n]
    ensures CanceledBelow(was, now, c, removeFromParent, error, reason) && RanBelow(was, closed, c)
  {
    Branches(c, was);
    EnclosingAbove(c);
    assert Linked(was, c);
    assert Below(c, c);
  }

  lemma FewerOpen(was: Picture, now: Picture, c: CancelContext, visited: set<CancelContext>, error: Error,
                  reason: Error)
    requires c in was && was[c].err.None? && Partly(was, now, c, visited, error, reason)
    ensures Open(now) < Open(was)
  {
    assert c in Open(was) && c !in Open(now);
  }

  /** A new context hangs in the tree. */
  lemma WithChild(before: Picture, after: Picture, child: CancelContext)
    requires Tree(before) && child !in before && after.Keys == before.Keys + {child}
    requires after[child].children == {} && (after[child].err.None? ==> after[child].cause.None?)
    requires child.enclosing != null ==> child.enclosing in before && child.enclosing.depth < child.depth
    requires child.attached && child.enclosing != null && after[child].err.None? ==> before[child.enclosing].err.None?
    requires forall n :: n in before ==>
               after[n] ==
               if child.attached && n == child.enclosing && before[n].err.None?
               then before[n].(children := before[n].children + {child}) else before[n]
    ensures Tree(after)
  {
    forall n | n in after
      ensures Linked(after, n) && Hangs(after, n)
    {
      if n != child {
        assert Linked(before, n) && Hangs(before, n);
      }
    }
  }

  // ---------- ancestry ----------

  lemma BelowDepth(c: CancelContext, n: CancelContext)
    requires Below(c, n)
    ensures n == c || n.depth > c.depth
    decreases n.depth
  {
    if n != c {
      BelowDepth(c, n.enclosing);
    }
  }

  lemma EnclosingKnown(c: CancelContext, m: Picture)
    requires c in m && Sound(c, m)
    ensures c.enclosing != null ==> c.enclosing in m
  {
  }

  lemma EnclosingAbove(c: CancelContext)
    ensures c.enclosing != null && c.enclosing.depth < c.depth ==> !Below(c, c.enclosing)
  {
    if c.enclosing != null && Below(c, c.enclosing) {
      BelowDepth(c, c.enclosing);
    }
  }

  /** A context is below at most one context of a given depth. */
  lemma OneBranch(a: CancelContext, b: CancelContext, n: CancelContext)
    requires Below(a, n) && Below(b, n) && a.enclosing == b.enclosing && a.enclosing != null
    requires a.enclosing.depth < a.depth && b.enclosing.depth < b.depth
    ensures a == b
    decreases n.depth
  {
    if n != a && n != b {
      OneBranch(a, b, n.enclosing);
    } else {
      NotBelowSibling(a, b, n);
    }
  }

  lemma NotBelowSibling(a: CancelContext, b: CancelContext, n: CancelContext)
    requires Below(a, n) && Below(b, n) && a.enclosing == b.enclosing && a.enclosing != null && (n == a || n == b)
    requires a.enclosing.depth < a.depth && b.enclosing.depth < b.depth
    ensures a == b
  {
    if a != b {
      var other := if n == a then b else a;
      BelowDepth(other, n.enclosing);
    }
  }

  lemma BelowTransitive(a: CancelContext, b: CancelContext, n: CancelContext)
    requires Below(a, b) && Below(b, n)
    ensures Below(a, n)
    decreases n.depth
  {
    if n != b {
      BelowTransitive(a, b, n.enclosing);
    }
  }

  lemma OpenAbove(c: CancelContext, n: CancelContext, m: Picture)
    requires Sound(c, m) && n in m && Below(c, n) && m[n].err.None?
    ensures c in m && m[c].err.None?
    ensures n == c || BelowAny(m[c].children, n)
    decreases n.depth
  {
    if n != c {
      assert Hangs(m, n);
      OpenAbove(c, n.enclosing, m);
      if n.enclosing == c {
        assert n in m[c].children && Below(n, n);
      } else {
        var child :| child in m[c].children && Below(child, n.enclosing);
        assert Below(child, n);
      }
    }
  }

  /** Below a canceled context everything is canceled. */
  lemma NothingOpen(c: CancelContext, m: Picture)
    requires c in m && Sound(c, m) && m[c].err.Some?
    ensures forall n :: n in m && Below(c, n) ==> m[n].err.Some?
  {
    forall n | n in m && Below(c, n)
      ensures m[n].err.Some?
    {
      if m[n].err.None? {
        OpenAbove(c, n, m);
      }
    }
  }

  /** Canceling again does nothing. */
  lemma NothingToDo(c: CancelContext, m: Picture, removeFromParent: bool, error: Error, reason: Error)
    requires c in m && Sound(c, m) && m[c].err.Some?
    ensures CanceledBelow(m, m, c, removeFromParent, error, reason) && RanBelow(m, [], c)
  {
    NothingOpen(c, m);
  }

  lemma ChildBelow(c: CancelContext, child: CancelContext, m: Picture)
    requires c in m && Sound(c, m) && child in m[c].children
    ensures child in m && Below(c, child) && child.depth > c.depth && child.enclosing == c && child.attached
  {
    assert Below(c, c);
    assert Linked(m, c);
  }

  /** What is open below `c` is `c` itself or below one of its children. */
  lemma Branches(c: CancelContext, m: Picture)
    requires c in m && Sound(c, m)
    ensures forall n :: n in m && m[n].err.None? && n != c ==> (Below(c, n) <==> BelowAny(m[c].children, n))
    ensures !BelowAny(m[c].children, c)
  {
    forall child | child in m[c].children
      ensures !Below(child, c)
    {
      ChildBelow(c, child, m);
      if Below(child, c) {
        BelowDepth(child, c);
      }
    }
    forall n | n in m && m[n].err.None? && n != c
      ensures Below(c, n) <==> BelowAny(m[c].children, n)
    {
      if Below(c, n) {
        OpenAbove(c, n, m);
      }
      if BelowAny(m[c].children, n) {
        var child :| child in m[c].children && Below(child, n);
        ChildBelow(c, child, m);
        BelowTransitive(c, child, n);
      }
    }
  }

  /** Canceling some children leaves the context below another child as it was. */
  lemma StillSound(c: CancelContext, child: CancelContext, was: Picture, now: Picture, visited: set<CancelContext>,
                   error: Error, reason: Error)
    requires c in was && Sound(c, was) && was[c].err.None? && Partly(was, now, c, visited, error, reason)
    requires child in was[c].children && child !in visited && visited <= was[c].children
    ensures child in now && Sound(child, now) && Open(now) < Open(was)
    ensures forall n :: n in was && Below(child, n) ==> n != c && !BelowAny(visited, n)
  {
    FewerOpen(was, now, c, visited, error, reason);
    ChildBelow(c, child, was);
    forall n | n in was && Below(child, n)
      ensures n != c && !BelowAny(visited, n) && Below(c, n)
    {
      BelowDepth(child, n);
      BelowTransitive(c, child, n);
      forall v | v in visited
        ensures !Below(v, n)
      {
        ChildBelow(c, v, was);
        if Below(v, n) {
          OneBranch(child, v, n);
        }
      }
    }
    forall n | n in now && Below(child, n)
      ensures Linked(now, n) && (n != child ==> Hangs(now, n))
    {
      assert Linked(was, n) && (n != child ==> Hangs(was, n));
      assert n != child ==> Below(child, n.enclosing);
    }
  }

  /** Canceling keeps the tree in order. */
  lemma TreeKept(was: Picture, now: Picture, c: CancelContext, error: Error, reason: Error)
    requires c in was && Tree(was) && CanceledBelow(was, now, c, true, error, reason)
    ensures Sound(c, was) && Tree(now)
  {
    hide Linked, Hangs, Below;
    assert Closed(now);
    forall n | n in now
      ensures Linked(now, n) && Hangs(now, n)
    {
      LinkedKept(was, now, c, n, error, reason);
      HangsKept(was, now, c, n, error, reason);
    }
  }

  lemma LinkedKept(was: Picture, now: Picture, c: CancelContext, n: CancelContext, error: Error, reason: Error)
    requires c in was && n in was && Linked(was, n) && CanceledBelow(was, now, c, true, error, reason)
    ensures Linked(now, n)
  {
    hide Below;
  }

  lemma HangsKept(was: Picture, now: Picture, c: CancelContext, n: CancelContext, error: Error, reason: Error)
    requires c in was && n in was && Tree(was) && CanceledBelow(was, now, c, true, error, reason)
    ensures Hangs(now, n)
  {
    hide Below, Linked;
    if now[n].err.None? && n.attached && n.enclosing != null {
      assert Hangs(was, n);
      assert Below(c, n) <==> n == c || Below(c, n.enclosing) by { BelowStep(c, n); }
    }
  }

  lemma BelowStep(c: CancelContext, n: CancelContext)
    requires n.attached && n.enclosing != null && n.enclosing.depth < n.depth
    ensures Below(c, n) <==> n == c || Below(c, n.enclosing)
  {
  }

  // ---------- operations are canceled alike in every order ----------

  function Closes(ids: seq<int>): (ops: seq<Operation>)
    ensures |ops| == |ids|
  {
    seq(|ids|, i requires 0 <= i < |ids| => CloseDone(ids[i]))
  }

  /** A command whose cancel callback ran, if it was still registered. */
  function Shut(c: Command): Command {
    if !c.armed then c
    else if c.Cancel().Some? then c.Cancel().value.(armed := false)
    else c.(armed := false)
  }

  /** Whether running the callback also settles the future. */
  predicate Releases(c: Command) {
    c.armed && c.Cancel().Some? && (c.action.Timer? || c.Cancel().value.state == CommandState.Canceled)
  }

  function Released(core: Core, ids: set<int>): set<int> {
    set id | id in ids && 1 <= id <= |core.commands| && Releases(core.commands[id - 1])
  }

  /** The effect of running the callbacks of a set of operations. */
  function ShutAll(core: Core, ids: set<int>): Core {
    core.(commands := seq(|core.commands|, i requires 0 <= i < |core.commands| =>
                            if i + 1 in ids then Shut(core.commands[i]) else core.commands[i]),
          pendingFutures := core.pendingFutures - Released(core, ids))
  }

  lemma ShutOne(core: Core, id: int)
    requires Indexed(core)
    ensures CancelOperation(core, id) == ShutAll(core, {id})
  {
    var one, all := CancelOperation(core, id), ShutAll(core, {id});
    assert one.commands == all.commands;
    assert one.pendingFutures == all.pendingFutures;
  }

  lemma ShutMore(core: Core, a: set<int>, b: set<int>)
    requires Indexed(core)
    ensures ShutAll(ShutAll(core, a), b) == ShutAll(core, a + b) && Indexed(ShutAll(core, a))
  {
    hide Command.Cancel;
    forall c: Command
      ensures Shut(Shut(c)) == Shut(c) && !Releases(Shut(c)) && Shut(c).id == c.id
    {
      ShutTwice(c);
    }
    var two, all := ShutAll(ShutAll(core, a), b), ShutAll(core, a + b);
    assert two.commands == all.commands;
    assert Released(core, a + b) == Released(core, a) + Released(ShutAll(core, a), b);
    assert two.pendingFutures == all.pendingFutures;
  }

  lemma ShutTwice(c: Command)
    ensures Shut(Shut(c)) == Shut(c) && !Releases(Shut(c)) && Shut(c).id == c.id
  {
  }

  function Members(ids: seq<int>): set<int> {
    set id | id in ids
  }

  lemma {:induction false} ClosesAreASet(core: Core, ids: seq<int>)
    requires Indexed(core)
    ensures OperateAll(core, Closes(ids)) == ShutAll(core, Members(ids))
    decreases |ids|
  {
    hide CancelOperation, ShutAll, Indexed;
    if ids == [] {
      ShutNone(core);
      assert Closes(ids) == [] && Members(ids) == {};
    } else {
      ShutOne(core, ids[0]);
      assert Closes(ids)[1..] == Closes(ids[1..]);
      ShutMore(core, {ids[0]}, Members(ids[1..]));
      ClosesAreASet(ShutAll(core, {ids[0]}), ids[1..]);
      assert ids == [ids[0]] + ids[1..];
      assert Members(ids) == {ids[0]} + Members(ids[1..]);
    }
  }

  lemma ShutNone(core: Core)
    ensures ShutAll(core, {}) == core
  {
    assert ShutAll(core, {}).commands == core.commands;
    assert ShutAll(core, {}).pendingFutures == core.pendingFutures;
  }

  /**
    Whatever the order in which children are visited, the same contexts end up canceled, and the
    workflow state has the same commands and futures.
   */
  lemma EveryOrderSame(was: Picture, c: CancelContext, error: Error, reason: Error, core: Core,
                       now: Picture, closed: seq<int>, now': Picture, closed': seq<int>)
    requires c in was && Indexed(core)
    requires CanceledBelow(was, now, c, true, error, reason) && RanBelow(was, closed, c)
    requires CanceledBelow(was, now', c, true, error, reason) && RanBelow(was, closed', c)
    ensures now == now'
    ensures OperateAll(core, Closes(closed)) == OperateAll(core, Closes(closed'))
  {
    hide ShutAll, Indexed;
    ClosesAreASet(core, closed);
    ClosesAreASet(core, closed');
    forall id
      ensures id in closed <==> id in closed'
    {
    }
    assert Members(closed) == Members(closed');
  }
}
