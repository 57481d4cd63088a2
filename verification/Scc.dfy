/** The depth-first search that linking and evaluation share, seen apart from what
    either does to a module: an explicit stack, low-links and component popping.
    A search state says which modules have left the search (`done`), which are on
    the stack, and their `dfsIndex` (`num`) and `dfsAncestorIndex` (`low`). The
    calls still in progress are the `gray` ones. */
module Scc {
  import opened ModuleGraph
  import opened Reachability

  type Succ = Id -> seq<Id>
  type Table = map<Id, int>

  datatype Dfs = Dfs(done: set<Id>, stack: seq<Id>, num: Table, low: Table)

  function At(t: Table, x: Id): int {
    if x in t then t[x] else -1
  }

  // ── The search invariant, one concern at a time ──────────────────────────

  /** Stack entries are not done, and their indices grow towards the top. */
  ghost predicate Numbered(done: set<Id>, stack: seq<Id>, num: Table) {
    && (forall i | 0 <= i < |stack| :: stack[i] !in done)
    && (forall i, j | 0 <= i < j < |stack| :: At(num, stack[i]) < At(num, stack[j]))
  }

  /** Deeper stack entries reach later ones. */
  ghost predicate Chained(succ: Succ, stack: seq<Id>) {
    forall i, j {:trigger Reach(succ, stack[i], stack[j])} | 0 <= i <= j < |stack| ::
      Reach(succ, stack[i], stack[j])
  }

  ghost predicate LowAt(succ: Succ, stack: seq<Id>, num: Table, x: Id, v: int) {
    exists z :: z in stack && At(num, z) == v && Reach(succ, x, z)
  }

  /** A low-link is at most the module's own index, and is the index of some stack
      entry the module reaches. */
  ghost predicate LowLinked(succ: Succ, stack: seq<Id>, num: Table, low: Table) {
    forall x {:trigger At(low, x)} | x in stack ::
      At(low, x) <= At(num, x) && LowAt(succ, stack, num, x, At(low, x))
  }

  ghost predicate Leans(succ: Succ, stack: seq<Id>, num: Table, gray: set<Id>, y: Id) {
    exists x :: x in gray && x in stack && At(num, x) <= At(num, y) && Reach(succ, y, x)
  }

  /** Every stack entry reaches a call in progress at or below it. */
  ghost predicate Leaning(succ: Succ, stack: seq<Id>, num: Table, gray: set<Id>) {
    forall y {:trigger Leans(succ, stack, num, gray, y)} | y in stack :: Leans(succ, stack, num, gray, y)
  }

  /** A finished call has seen each of its requests leave the search or stay on the stack. */
  ghost predicate Finished(succ: Succ, done: set<Id>, stack: seq<Id>, gray: set<Id>) {
    forall x, w | x in stack && x !in gray && w in succ(x) :: w in done || w in stack
  }

  ghost predicate Searching(succ: Succ, d: Dfs, gray: set<Id>) {
    && Numbered(d.done, d.stack, d.num)
    && Chained(succ, d.stack)
    && LowLinked(succ, d.stack, d.num, d.low)
    && Leaning(succ, d.stack, d.num, gray)
    && Finished(succ, d.done, d.stack, gray)
    && Closed(succ, d.done)
    && (forall x | x in gray :: x in d.stack)
  }

  ghost predicate Agree(stack: seq<Id>, t0: Table, t1: Table) {
    forall x | x in stack :: At(t0, x) == At(t1, x)
  }

  /** `d1` only adds to `d0`: modules done, and entries above its stack. */
  ghost predicate Extends(d0: Dfs, d1: Dfs) {
    && d0.done <= d1.done
    && d0.stack <= d1.stack
    && Agree(d0.stack, d0.num, d1.num)
    && Agree(d0.stack, d0.low, d1.low)
  }

  /** Edges out of `from` into `below` lead to indices of at least `v`. */
  ghost predicate Bounded(succ: Succ, from: seq<Id>, below: seq<Id>, num: Table, v: int) {
    forall x, w | x in from && w in succ(x) && w in below :: v <= At(num, w)
  }

  ghost predicate Looked(done: set<Id>, stack: seq<Id>, num: Table, v: int, w: Id) {
    w in done || (w in stack && v <= At(num, w))
  }

  /** The call for `m`, entered at stack height `base`, has dealt with its first `i` requests. */
  ghost predicate Looping(succ: Succ, d: Dfs, gray: set<Id>, base: nat, m: Id, i: nat) {
    && Searching(succ, d, gray + {m})
    && base < |d.stack| && d.stack[base] == m && m !in gray
    && (forall x | x in gray :: x in d.stack[..base])
    && Bounded(succ, d.stack[base+1..], d.stack[..base], d.num, At(d.low, m))
    && (forall j | 0 <= j < i && j < |succ(m)| :: Looked(d.done, d.stack, d.num, At(d.low, m), succ(m)[j]))
  }

  /** What a completed call for `m` leaves behind, starting from `d0`. */
  ghost predicate Returned(succ: Succ, d0: Dfs, d1: Dfs, gray: set<Id>, m: Id) {
    && Searching(succ, d1, gray)
    && Extends(d0, d1)
    && (if d1.stack == d0.stack then m in d1.done || m in d0.stack
        else
          && |d0.stack| < |d1.stack| && m == d1.stack[|d0.stack|]
          && Bounded(succ, d1.stack[|d0.stack|..], d0.stack, d1.num, At(d1.low, m)))
  }

  // ── Small facts about sequences ──────────────────────────────────────────

  lemma InSplit(s: seq<Id>, k: nat, x: Id)
    requires k <= |s|
    ensures x in s <==> x in s[..k] || x in s[k..]
  {
    assert s == s[..k] + s[k..];
  }

  lemma InPush(s: seq<Id>, m: Id)
    ensures forall x :: x in s + [m] <==> x in s || x == m
  {
  }

  /** Equal indices mean the same stack entry, and order on the stack is order of indices. */
  lemma NumberedApart(done: set<Id>, stack: seq<Id>, num: Table, base: nat, x: Id, y: Id)
    requires Numbered(done, stack, num) && base <= |stack|
    requires x in stack[..base] && y in stack[base..]
    ensures At(num, x) < At(num, y) && x != y
  {
    var i :| 0 <= i < base && stack[..base][i] == x;
    var j :| 0 <= j < |stack| - base && stack[base..][j] == y;
    assert stack[i] == x && stack[base + j] == y;
  }

  // ── Entering a call ──────────────────────────────────────────────────────

  function Push(d: Dfs, m: Id, index: int): Dfs {
    Dfs(d.done, d.stack + [m], d.num[m := index], d.low[m := index])
  }

  lemma PushNumbered(done: set<Id>, stack: seq<Id>, num: Table, m: Id, index: int)
    requires Numbered(done, stack, num) && m !in done && m !in stack
    requires forall x | x in stack :: At(num, x) < index
    ensures Numbered(done, stack + [m], num[m := index])
  {
    var s, n := stack + [m], num[m := index];
    forall i, j | 0 <= i < j < |s| ensures At(n, s[i]) < At(n, s[j]) {
      assert s[i] == stack[i] && s[i] in stack;
      if j < |stack| { assert s[j] == stack[j] && s[j] in stack; }
    }
  }

  lemma PushChained(succ: Succ, stack: seq<Id>, m: Id)
    requires Chained(succ, stack)
    requires forall x | x in stack :: Reach(succ, x, m)
    ensures Chained(succ, stack + [m])
  {
    hide Reach;
    var s := stack + [m];
    ReachRefl(succ, m);
    forall i, j | 0 <= i <= j < |s| ensures Reach(succ, s[i], s[j]) {
      if i < |stack| { assert s[i] == stack[i] && s[i] in stack; }
      if j < |stack| { assert s[j] == stack[j]; assert Reach(succ, stack[i], stack[j]); }
    }
  }

  lemma PushLow(succ: Succ, stack: seq<Id>, num: Table, low: Table, m: Id, index: int)
    requires LowLinked(succ, stack, num, low) && m !in stack
    ensures LowLinked(succ, stack + [m], num[m := index], low[m := index])
  {
    hide Reach;
    var s, n, l := stack + [m], num[m := index], low[m := index];
    ReachRefl(succ, m);
    assert s[|stack|] == m;
    forall x | x in s ensures At(l, x) <= At(n, x) && LowAt(succ, s, n, x, At(l, x)) {
      if x != m {
        assert x in stack && At(l, x) == At(low, x);
        var z :| z in stack && At(num, z) == At(low, x) && Reach(succ, x, z);
        assert z in s && At(n, z) == At(num, z);
      }
    }
  }

  lemma PushLeaning(succ: Succ, stack: seq<Id>, num: Table, gray: set<Id>, m: Id, index: int)
    requires Leaning(succ, stack, num, gray) && m !in stack
    ensures Leaning(succ, stack + [m], num[m := index], gray + {m})
  {
    hide Reach;
    var s, n := stack + [m], num[m := index];
    ReachRefl(succ, m);
    assert s[|stack|] == m;
    forall y | y in s ensures Leans(succ, s, n, gray + {m}, y) {
      if y != m {
        assert Leans(succ, stack, num, gray, y);
        var x :| x in gray && x in stack && At(num, x) <= At(num, y) && Reach(succ, y, x);
        assert x in s && x in gray + {m};
      } else {
        assert m in gray + {m} && m in s;
      }
    }
  }

  /** Entering `m`, which is not yet in the search and which everything on the stack reaches. */
  lemma Enter(succ: Succ, d: Dfs, gray: set<Id>, m: Id, index: int)
    requires Searching(succ, d, gray)
    requires m !in d.done && m !in d.stack
    requires forall x | x in d.stack :: At(d.num, x) < index && Reach(succ, x, m)
    ensures Looping(succ, Push(d, m, index), gray, |d.stack|, m, 0)
    ensures Extends(d, Push(d, m, index))
  {
    hide Reach, Leans, LowAt;
    PushNumbered(d.done, d.stack, d.num, m, index);
    PushChained(succ, d.stack, m);
    PushLow(succ, d.stack, d.num, d.low, m, index);
    PushLeaning(succ, d.stack, d.num, gray, m, index);
    var d1 := Push(d, m, index);
    assert d1.stack[..|d.stack|] == d.stack && d1.stack[|d.stack|+1..] == [];
    InPush(d.stack, m);
  }

  // ── While a call loops over its requests ─────────────────────────────────

  lemma GrayReaches(succ: Succ, d: Dfs, gray: set<Id>, base: nat, m: Id, i: nat, y: Id)
    requires Looping(succ, d, gray, base, m, i)
    requires y in gray + {m}
    ensures Reach(succ, y, m)
  {
    hide Reach, Leans, LowAt;
    if y == m { ReachRefl(succ, m); } else {
      var k :| 0 <= k < base && d.stack[..base][k] == y;
      assert d.stack[k] == y;
      assert Reach(succ, d.stack[k], d.stack[base]);
    }
  }

  /** Everything on the stack reaches the call in progress, hence whatever it requests. */
  lemma StackReaches(succ: Succ, d: Dfs, gray: set<Id>, base: nat, m: Id, i: nat, x: Id)
    requires Looping(succ, d, gray, base, m, i)
    requires x in d.stack
    ensures Reach(succ, x, m)
  {
    hide Reach, LowAt;
    assert Leans(succ, d.stack, d.num, gray + {m}, x);
    var y :| y in gray + {m} && y in d.stack && At(d.num, y) <= At(d.num, x) && Reach(succ, x, y);
    GrayReaches(succ, d, gray, base, m, i, y);
    ReachTrans(succ, x, y, m);
  }

  lemma StackReachesRequest(succ: Succ, d: Dfs, gray: set<Id>, base: nat, m: Id, i: nat, w: Id)
    requires Looping(succ, d, gray, base, m, i)
    requires w in succ(m)
    ensures forall x | x in d.stack :: Reach(succ, x, w)
  {
    hide Reach, Looping;
    ReachEdge(succ, m, w);
    forall x | x in d.stack ensures Reach(succ, x, w) {
      StackReaches(succ, d, gray, base, m, i, x);
      ReachTrans(succ, x, m, w);
    }
  }

  /** A request that is still on the stack is in the same component as the current call. */
  lemma OnStackIsMutual(succ: Succ, d: Dfs, gray: set<Id>, base: nat, m: Id, i: nat, w: Id)
    requires Looping(succ, d, gray, base, m, i)
    requires w in succ(m) && w in d.stack
    ensures MutualReach(succ, m, w)
  {
    hide Reach, Looping;
    ReachEdge(succ, m, w);
    StackReaches(succ, d, gray, base, m, i, w);
  }

  function Min(a: int, b: int): int { if b < a then b else a }

  function Lower(d: Dfs, m: Id, v: int): Dfs {
    d.(low := d.low[m := Min(At(d.low, m), v)])
  }

  lemma LowerLow(succ: Succ, stack: seq<Id>, num: Table, low: Table, m: Id, w: Id)
    requires LowLinked(succ, stack, num, low)
    requires m in stack && w in stack && w in succ(m)
    ensures LowLinked(succ, stack, num, low[m := Min(At(low, m), At(low, w))])
  {
    hide Reach;
    var l := low[m := Min(At(low, m), At(low, w))];
    assert LowAt(succ, stack, num, m, At(low, m)) && LowAt(succ, stack, num, w, At(low, w));
    forall x | x in stack ensures At(l, x) <= At(num, x) && LowAt(succ, stack, num, x, At(l, x)) {
      if x == m {
        if At(low, w) < At(low, m) {
          var z :| z in stack && At(num, z) == At(low, w) && Reach(succ, w, z);
          ReachStep(succ, m, w, z);
        }
      } else {
        assert At(l, x) == At(low, x);
      }
    }
  }

  /** What the call for a request leaves of the loop that made it. */
  ghost predicate LoopKept(succ: Succ, d0: Dfs, d: Dfs, gray: set<Id>, base: nat, m: Id, i: nat) {
    && base < |d.stack| && base < |d0.stack| && d.stack[base] == m && d.stack[..base] == d0.stack[..base]
    && At(d.low, m) == At(d0.low, m)
    && (forall x | x in gray :: x in d.stack[..base])
    && (forall j | 0 <= j < i && j < |succ(m)| :: Looked(d.done, d.stack, d.num, At(d.low, m), succ(m)[j]))
    && (i < |succ(m)| ==> succ(m)[i] in d.done || succ(m)[i] in d.stack)
  }

  /** Back from the call for the `i`-th request, before the low-link is lowered. The
      request is done, or it is on the stack and its low-link bounds what its call added. */
  lemma ChildKeepsLoop(succ: Succ, d0: Dfs, d: Dfs, gray: set<Id>, base: nat, m: Id, i: nat)
    requires Looping(succ, d0, gray, base, m, i)
    requires i < |succ(m)|
    requires Returned(succ, d0, d, gray + {m}, succ(m)[i])
    ensures LoopKept(succ, d0, d, gray, base, m, i)
  {
    hide Reach, Searching;
    assert d.stack[base] == d0.stack[base] && m in d0.stack;
    assert d.stack[..base] == d0.stack[..base];
    forall j | 0 <= j < i ensures Looked(d.done, d.stack, d.num, At(d.low, m), succ(m)[j]) {
      assert Looked(d0.done, d0.stack, d0.num, At(d0.low, m), succ(m)[j]);
    }
  }

  lemma ChildKeepsBound(succ: Succ, d0: Dfs, d: Dfs, gray: set<Id>, base: nat, m: Id, i: nat, v: int)
    requires Looping(succ, d0, gray, base, m, i)
    requires i < |succ(m)|
    requires Returned(succ, d0, d, gray + {m}, succ(m)[i])
    requires base < |d.stack| && d.stack[..base] == d0.stack[..base]
    requires v <= At(d0.low, m)
    requires d.stack != d0.stack ==> v <= At(d.low, succ(m)[i])
    ensures Bounded(succ, d.stack[base+1..], d.stack[..base], d.num, v)
  {
    hide Reach, Searching, Looked;
    forall x, w | x in d.stack[base+1..] && w in succ(x) && w in d.stack[..base] ensures v <= At(d.num, w) {
      var k :| 0 <= k < |d.stack| - base - 1 && d.stack[base+1..][k] == x;
      assert w in d0.stack by { InSplit(d0.stack, base, w); }
      if base + 1 + k < |d0.stack| {
        assert d0.stack[base+1..][k] == d0.stack[base+1+k] == d.stack[base+1+k] == x;
        assert x in d0.stack[base+1..];
      } else {
        assert d.stack[|d0.stack|..][base + 1 + k - |d0.stack|] == x;
      }
    }
  }

  lemma DoneIsOffStack(succ: Succ, d0: Dfs, d: Dfs, gray: set<Id>, w: Id)
    requires Returned(succ, d0, d, gray, w)
    requires w in d.done
    ensures d.stack == d0.stack
  {
    hide Reach, Leans, LowAt, Chained, Leaning, LowLinked, Finished, Looked, Bounded;
  }

  lemma ChildDoneBound(succ: Succ, d0: Dfs, d: Dfs, gray: set<Id>, base: nat, m: Id, i: nat)
    requires Looping(succ, d0, gray, base, m, i)
    requires i < |succ(m)|
    requires Returned(succ, d0, d, gray + {m}, succ(m)[i])
    requires succ(m)[i] in d.done
    requires base < |d.stack| && d.stack[..base] == d0.stack[..base]
    requires At(d.low, m) == At(d0.low, m)
    ensures Bounded(succ, d.stack[base+1..], d.stack[..base], d.num, At(d.low, m))
  {
    DoneIsOffStack(succ, d0, d, gray + {m}, succ(m)[i]);
    hide Returned, Looping;
    ChildKeepsBound(succ, d0, d, gray, base, m, i, At(d.low, m));
  }

  /** Back from a request whose component left the search. */
  lemma ChildDone(succ: Succ, d0: Dfs, d: Dfs, gray: set<Id>, base: nat, m: Id, i: nat)
    requires Looping(succ, d0, gray, base, m, i)
    requires i < |succ(m)|
    requires Returned(succ, d0, d, gray + {m}, succ(m)[i])
    requires succ(m)[i] in d.done
    ensures Looping(succ, d, gray, base, m, i + 1)
  {
    ChildKeepsLoop(succ, d0, d, gray, base, m, i);
    ChildDoneBound(succ, d0, d, gray, base, m, i);
    assert m !in gray by { hide *; }
    AssembleLoop(succ, d, gray, base, m, i);
  }

  lemma AssembleLoop(succ: Succ, d: Dfs, gray: set<Id>, base: nat, m: Id, i: nat)
    requires Searching(succ, d, gray + {m})
    requires base < |d.stack| && d.stack[base] == m && m !in gray
    requires forall x | x in gray :: x in d.stack[..base]
    requires Bounded(succ, d.stack[base+1..], d.stack[..base], d.num, At(d.low, m))
    requires forall j | 0 <= j < i && j < |succ(m)| :: Looked(d.done, d.stack, d.num, At(d.low, m), succ(m)[j])
    requires i < |succ(m)| ==> succ(m)[i] in d.done
    ensures Looping(succ, d, gray, base, m, i + 1)
  {
    hide Searching, Bounded;
  }

  /** Back from a request that stays on the stack. */
  lemma ChildOnStack(succ: Succ, d0: Dfs, d: Dfs, gray: set<Id>, base: nat, m: Id, i: nat)
    requires Looping(succ, d0, gray, base, m, i)
    requires i < |succ(m)|
    requires Returned(succ, d0, d, gray + {m}, succ(m)[i])
    requires succ(m)[i] in d.stack
    ensures Looping(succ, Lower(d, m, At(d.low, succ(m)[i])), gray, base, m, i + 1)
  {
    hide Reach, Leans, LowAt, Numbered, Chained, Leaning, Finished, Bounded;
    var w := succ(m)[i];
    ChildKeepsLoop(succ, d0, d, gray, base, m, i);
    assert m in d.stack && w in succ(m);
    LowerLow(succ, d.stack, d.num, d.low, m, w);
    var d1 := Lower(d, m, At(d.low, w));
    assert At(d1.low, m) <= At(d.low, m) && At(d1.low, m) <= At(d.low, w) <= At(d.num, w);
    hide LowLinked;
    ChildKeepsBound(succ, d0, d, gray, base, m, i, At(d1.low, m));
    forall j | 0 <= j < i + 1 && j < |succ(m)| ensures Looked(d1.done, d1.stack, d1.num, At(d1.low, m), succ(m)[j]) {
      if j < i { assert Looked(d.done, d.stack, d.num, At(d.low, m), succ(m)[j]); }
    }
  }

  // ── Leaving a call ───────────────────────────────────────────────────────

  lemma AllLooked(succ: Succ, d: Dfs, gray: set<Id>, base: nat, m: Id, w: Id)
    requires Looping(succ, d, gray, base, m, |succ(m)|)
    requires w in succ(m)
    ensures Looked(d.done, d.stack, d.num, At(d.low, m), w)
  {
    hide Searching, Bounded;
    var j :| 0 <= j < |succ(m)| && succ(m)[j] == w;
  }

  /** With a low-link below its index, `m` reaches a call in progress other than its own. */
  lemma LowReachesGray(succ: Succ, d: Dfs, gray: set<Id>, base: nat, m: Id, i: nat) returns (x: Id)
    requires Looping(succ, d, gray, base, m, i)
    requires At(d.low, m) != At(d.num, m)
    ensures x in gray && x in d.stack && At(d.num, x) < At(d.num, m) && Reach(succ, m, x)
  {
    hide Reach, Finished, Chained, Bounded, Looked;
    assert m in d.stack;
    assert At(d.low, m) <= At(d.num, m) && LowAt(succ, d.stack, d.num, m, At(d.low, m));
    var z :| z in d.stack && At(d.num, z) == At(d.low, m) && Reach(succ, m, z);
    assert Leans(succ, d.stack, d.num, gray + {m}, z);
    x :| x in gray + {m} && x in d.stack && At(d.num, x) <= At(d.num, z) && Reach(succ, z, x);
    ReachTrans(succ, m, z, x);
  }

  lemma KeepLeaning(succ: Succ, d: Dfs, gray: set<Id>, base: nat, m: Id, i: nat)
    requires Looping(succ, d, gray, base, m, i)
    requires At(d.low, m) != At(d.num, m)
    ensures Leaning(succ, d.stack, d.num, gray)
  {
    var x := LowReachesGray(succ, d, gray, base, m, i);
    hide Reach, Finished, Chained, Bounded, Looked, LowAt;
    forall y | y in d.stack ensures Leans(succ, d.stack, d.num, gray, y) {
      assert Leans(succ, d.stack, d.num, gray + {m}, y);
      var v :| v in gray + {m} && v in d.stack && At(d.num, v) <= At(d.num, y) && Reach(succ, y, v);
      if v == m { ReachTrans(succ, y, m, x); }
    }
  }

  lemma KeepFinished(succ: Succ, d: Dfs, gray: set<Id>, base: nat, m: Id)
    requires Looping(succ, d, gray, base, m, |succ(m)|)
    ensures Finished(succ, d.done, d.stack, gray)
  {
    hide Reach, Leans, LowAt, Numbered, Chained, LowLinked, Leaning, Bounded;
    forall v, w | v in d.stack && v !in gray && w in succ(v) ensures w in d.done || w in d.stack {
      if v == m { AllLooked(succ, d, gray, base, m, w); }
    }
  }

  lemma KeepBounded(succ: Succ, d: Dfs, gray: set<Id>, base: nat, m: Id)
    requires Looping(succ, d, gray, base, m, |succ(m)|)
    ensures Bounded(succ, d.stack[base..], d.stack[..base], d.num, At(d.low, m))
  {
    hide Reach, Leans, LowAt, Chained, LowLinked, Leaning, Finished;
    forall x, w | x in d.stack[base..] && w in succ(x) && w in d.stack[..base]
      ensures At(d.low, m) <= At(d.num, w) {
      if x == m {
        AllLooked(succ, d, gray, base, m, w);
        InSplit(d.stack, base, w);
        assert w !in d.done by { var j :| 0 <= j < |d.stack| && d.stack[j] == w; }
      } else {
        var k :| 0 <= k < |d.stack| - base && d.stack[base..][k] == x;
        assert d.stack[base+1..][k-1] == x;
      }
    }
  }

  /** The call for `m` ends with a low-link below its index: it stays on the stack. */
  lemma Keep(succ: Succ, d0: Dfs, d: Dfs, gray: set<Id>, m: Id)
    requires Looping(succ, d, gray, |d0.stack|, m, |succ(m)|)
    requires Extends(d0, d)
    requires At(d.low, m) != At(d.num, m)
    ensures Returned(succ, d0, d, gray, m)
  {
    var base := |d0.stack|;
    KeepLeaning(succ, d, gray, base, m, |succ(m)|);
    KeepFinished(succ, d, gray, base, m);
    KeepBounded(succ, d, gray, base, m);
    hide Reach, Leans, LowAt, Numbered, Chained, LowLinked, Leaning, Finished, Bounded, Looked;
    assert d.stack[..base] == d0.stack;
    assert d.stack[base] == m;
    forall x | x in gray ensures x in d.stack { InSplit(d.stack, base, x); }
  }

  function Pop(d: Dfs, base: nat): Dfs
    requires base <= |d.stack|
  {
    Dfs(d.done + (set x | x in d.stack[base..]), d.stack[..base], d.num, d.low)
  }

  /** `c` is the strongly connected component of `m`, all of it. */
  ghost predicate IsComponent(succ: Succ, c: seq<Id>, m: Id) {
    forall x :: x in c <==> MutualReach(succ, m, x)
  }

  /** No edge leads out of the part of the stack that is about to be popped. */
  lemma SegmentClosed(succ: Succ, d: Dfs, gray: set<Id>, base: nat, m: Id)
    requires Looping(succ, d, gray, base, m, |succ(m)|)
    requires At(d.low, m) == At(d.num, m)
    ensures Closed(succ, Pop(d, base).done)
  {
    KeepFinished(succ, d, gray, base, m);
    KeepBounded(succ, d, gray, base, m);
    hide Reach, Leans, LowAt, Chained, LowLinked, Leaning, Looked;
    assert d.stack[base..][0] == m;
    forall x, w | x in Pop(d, base).done && w in succ(x) ensures w in Pop(d, base).done {
      if x !in d.done {
        assert x in d.stack && x !in gray by {
          InSplit(d.stack, base, x);
          if x in gray { NumberedApart(d.done, d.stack, d.num, base, x, x); }
        }
        if w in d.stack {
          InSplit(d.stack, base, w);
          if w in d.stack[..base] { NumberedApart(d.done, d.stack, d.num, base, w, m); }
        }
      }
    }
  }

  lemma SegmentReachesBack(succ: Succ, d: Dfs, gray: set<Id>, base: nat, m: Id, x: Id)
    requires Looping(succ, d, gray, base, m, |succ(m)|)
    requires At(d.low, m) == At(d.num, m)
    requires x in d.stack[base..]
    ensures MutualReach(succ, m, x)
  {
    hide Reach, LowAt, LowLinked, Leaning, Finished, Looked, Bounded;
    var k :| 0 <= k < |d.stack| - base && d.stack[base..][k] == x;
    assert d.stack[base + k] == x && x in d.stack;
    assert Reach(succ, d.stack[base], d.stack[base + k]);
    StackReaches(succ, d, gray, base, m, |succ(m)|, x);
  }

  lemma SegmentIsComponent(succ: Succ, d: Dfs, gray: set<Id>, base: nat, m: Id)
    requires Looping(succ, d, gray, base, m, |succ(m)|)
    requires At(d.low, m) == At(d.num, m)
    ensures IsComponent(succ, d.stack[base..], m)
  {
    SegmentClosed(succ, d, gray, base, m);
    hide Reach, Leans, LowAt, LowLinked, Leaning, Finished, Looked, Bounded, Chained;
    assert d.stack[base..][0] == m;
    forall x ensures x in d.stack[base..] <==> MutualReach(succ, m, x) {
      if x in d.stack[base..] { SegmentReachesBack(succ, d, gray, base, m, x); }
      if MutualReach(succ, m, x) {
        ClosedReach(succ, Pop(d, base).done, m, x);
        if x in d.done { ClosedReach(succ, d.done, x, m); }
      }
    }
  }

  lemma PopNumbered(d: Dfs, base: nat)
    requires Numbered(d.done, d.stack, d.num) && base <= |d.stack|
    ensures Numbered(Pop(d, base).done, d.stack[..base], d.num)
  {
    forall i | 0 <= i < base ensures d.stack[..base][i] !in Pop(d, base).done {
      assert d.stack[..base][i] == d.stack[i] && d.stack[i] in d.stack[..base];
      if d.stack[i] in d.stack[base..] {
        NumberedApart(d.done, d.stack, d.num, base, d.stack[i], d.stack[i]);
      }
    }
  }

  lemma PopChained(succ: Succ, stack: seq<Id>, base: nat)
    requires Chained(succ, stack) && base <= |stack|
    ensures Chained(succ, stack[..base])
  {
    hide Reach;
    forall i, j | 0 <= i <= j < base ensures Reach(succ, stack[..base][i], stack[..base][j]) {
      assert Reach(succ, stack[i], stack[j]);
    }
  }

  lemma PopLinks(succ: Succ, d: Dfs, gray: set<Id>, base: nat, m: Id)
    requires Looping(succ, d, gray, base, m, |succ(m)|)
    ensures LowLinked(succ, d.stack[..base], d.num, d.low)
    ensures Leaning(succ, d.stack[..base], d.num, gray)
  {
    hide Reach, Finished, Looked, Bounded, Chained;
    var s := d.stack[..base];
    assert d.stack[base..][0] == m;
    forall x | x in s
      ensures At(d.low, x) <= At(d.num, x) && LowAt(succ, s, d.num, x, At(d.low, x))
      ensures Leans(succ, s, d.num, gray, x) {
      InSplit(d.stack, base, x);
      NumberedApart(d.done, d.stack, d.num, base, x, m);
      assert At(d.low, x) <= At(d.num, x) && LowAt(succ, d.stack, d.num, x, At(d.low, x));
      var z :| z in d.stack && At(d.num, z) == At(d.low, x) && Reach(succ, x, z);
      BelowIsBelow(d, base, z, x);
      assert Leans(succ, d.stack, d.num, gray + {m}, x);
      var v :| v in gray + {m} && v in d.stack && At(d.num, v) <= At(d.num, x) && Reach(succ, x, v);
      assert v in gray && v in s;
    }
  }

  lemma BelowIsBelow(d: Dfs, base: nat, z: Id, x: Id)
    requires Numbered(d.done, d.stack, d.num) && base <= |d.stack|
    requires z in d.stack && x in d.stack[..base] && At(d.num, z) <= At(d.num, x)
    ensures z in d.stack[..base]
  {
    InSplit(d.stack, base, z);
    if z in d.stack[base..] { NumberedApart(d.done, d.stack, d.num, base, x, z); }
  }

  lemma PopFinished(succ: Succ, d: Dfs, gray: set<Id>, base: nat, m: Id)
    requires Looping(succ, d, gray, base, m, |succ(m)|)
    ensures Finished(succ, Pop(d, base).done, d.stack[..base], gray)
  {
    hide Reach, Leans, LowAt, LowLinked, Leaning, Looked, Bounded, Chained;
    assert d.stack[base..][0] == m;
    forall x, w | x in d.stack[..base] && x !in gray && w in succ(x)
      ensures w in Pop(d, base).done || w in d.stack[..base] {
      InSplit(d.stack, base, x);
      NumberedApart(d.done, d.stack, d.num, base, x, m);
      InSplit(d.stack, base, w);
    }
  }

  /** The call for `m` ends with its low-link at its own index: its component leaves the search. */
  lemma PopComponent(succ: Succ, d0: Dfs, d: Dfs, gray: set<Id>, m: Id)
    requires Looping(succ, d, gray, |d0.stack|, m, |succ(m)|)
    requires Extends(d0, d)
    requires At(d.low, m) == At(d.num, m)
    ensures Returned(succ, d0, Pop(d, |d0.stack|), gray, m)
    ensures IsComponent(succ, d.stack[|d0.stack|..], m)
  {
    var base := |d0.stack|;
    SegmentIsComponent(succ, d, gray, base, m);
    SegmentClosed(succ, d, gray, base, m);
    PopNumbered(d, base);
    PopLinks(succ, d, gray, base, m);
    PopFinished(succ, d, gray, base, m);
    PopChained(succ, d.stack, base);
    hide Reach, Leans, LowAt, Numbered, LowLinked, Leaning, Finished, Looked, Bounded, IsComponent, Closed, Chained;
    assert d.stack[..base] == d0.stack;
    assert d.stack[base..][0] == m;
  }
}
