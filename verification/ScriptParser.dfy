/**
  The parser's tree of statements (src/client/txn_script/script_parser.c): lines
  placed by their indentation, blocks opened and closed on a stack, statements
  linked to their siblings and their parent.
 */
module ScriptParser {
  import opened ScriptTree

  // ---------- the tree in line order ----------

  predicate IsNode(script: Script, i: nat) {
    i == NO_INDEX || i < |script|
  }

  function Before(script: Script, i: nat): nat {
    if i < |script| then |script| - i else 0
  }

  function ChildOf(s: Statement): nat {
    if s.For? then s.child else NO_INDEX
  }

  /** The statements reached from `i`: itself, those inside it, then its later siblings with theirs. */
  function Preorder(script: Script, i: nat): seq<nat>
    requires IsTree(script)
    decreases Before(script, i)
  {
    if i >= |script| then []
    else [i] + Preorder(script, ChildOf(script[i])) + Preorder(script, script[i].next)
  }

  predicate Increasing(s: seq<nat>) {
    forall j, k | 0 <= j < k < |s| :: s[j] < s[k]
  }

  /** From `i`, always to the next sibling and at the last one into it, one comes to `p`. */
  predicate OnSpine(script: Script, i: nat, p: nat)
    requires IsTree(script)
    decreases Before(script, i)
  {
    i < |script| &&
    (i == p || OnSpine(script, if script[i].next == NO_INDEX then ChildOf(script[i]) else script[i].next, p))
  }

  /** A new statement, linked to nothing yet. */
  predicate IsLoose(s: Statement) {
    s.next == NO_INDEX && ChildOf(s) == NO_INDEX
  }

  /** The statement `p` linked to `n`, as its next sibling or as the first one inside it. */
  function Attached(script: Script, p: nat, n: nat, inside: bool): Script
    requires p < |script| && (inside ==> script[p].For?)
  {
    script[p := if inside then script[p].(child := n) else script[p].(next := n)]
  }

  lemma {:induction false} SpineGoesOn(script: Script, i: nat, p: nat)
    requires IsTree(script) && OnSpine(script, i, p)
    ensures i <= p < |script| && p in Preorder(script, i)
    decreases Before(script, i)
  {
    if i != p {
      SpineGoesOn(script, if script[i].next == NO_INDEX then ChildOf(script[i]) else script[i].next, p);
    }
  }

  lemma {:induction false} ReachedLater(script: Script, i: nat, p: nat)
    requires IsTree(script) && p in Preorder(script, i)
    ensures i <= p < |script|
    decreases Before(script, i)
  {
    if i < |script| && p != i {
      if p in Preorder(script, ChildOf(script[i])) {
        ReachedLater(script, ChildOf(script[i]), p);
      } else {
        ReachedLater(script, script[i].next, p);
      }
    }
  }

  /** A statement added at the end and linked to nothing changes nothing. */
  lemma {:induction false} Added(script: Script, s: Statement, i: nat)
    requires IsTree(script) && |script| < STATEMENTS_MAX && IsLoose(s) && IsNode(script, i)
    ensures IsTree(script + [s])
    ensures Preorder(script + [s], i) == Preorder(script, i)
    ensures forall p: nat | p < |script| :: OnSpine(script + [s], i, p) <==> OnSpine(script, i, p)
    decreases Before(script, i)
  {
    if i < |script| {
      assert (script + [s])[i] == script[i];
      Added(script, s, ChildOf(script[i]));
      Added(script, s, script[i].next);
    }
  }

  lemma AttachedIsTree(script: Script, p: nat, inside: bool)
    requires IsTree(script) && p + 1 < |script| && (inside ==> script[p].For?)
    ensures IsTree(Attached(script, p, |script| - 1, inside))
  {
  }

  /** A link at a statement that is not reached changes nothing. */
  lemma {:induction false} AttachedElsewhere(script: Script, i: nat, p: nat, inside: bool)
    requires IsTree(script) && p + 1 < |script| && (inside ==> script[p].For?)
    requires IsNode(script, i) && p !in Preorder(script, i)
    requires IsTree(Attached(script, p, |script| - 1, inside))
    ensures Preorder(Attached(script, p, |script| - 1, inside), i) == Preorder(script, i)
    decreases Before(script, i)
  {
    if i < |script| {
      AttachedElsewhere(script, ChildOf(script[i]), p, inside);
      AttachedElsewhere(script, script[i].next, p, inside);
    }
  }

  /** The three parts of an increasing preorder. */
  lemma Parts(i: nat, b: seq<nat>, c: seq<nat>)
    requires Increasing([i] + b + c)
    ensures Increasing(b) && Increasing(c)
    ensures forall x, y | x in b && y in c :: x < y
  {
    var s := [i] + b + c;
    assert forall k | 0 <= k < |b| :: b[k] == s[1 + k];
    assert forall k | 0 <= k < |c| :: c[k] == s[1 + |b| + k];
  }

  lemma AttachedHere(script: Script, p: nat, inside: bool)
    requires IsTree(script) && p + 1 < |script| && script[p].next == NO_INDEX
    requires inside ==> script[p].For? && script[p].child == NO_INDEX
    requires IsLoose(script[|script| - 1])
    requires IsTree(Attached(script, p, |script| - 1, inside))
    ensures Preorder(Attached(script, p, |script| - 1, inside), p) == Preorder(script, p) + [|script| - 1]
  {
    var n := |script| - 1;
    var after := Attached(script, p, n, inside);
    assert Preorder(after, n) == [n];
    if inside {
      assert Preorder(after, p) == [p] + [n] + [];
    } else {
      var child := ChildOf(script[p]);
      if p in Preorder(script, child) {
        ReachedLater(script, child, p);
      }
      AttachedElsewhere(script, child, p, false);
      assert Preorder(after, p) == [p] + Preorder(script, child) + [n];
    }
  }

  /** A statement linked at the end of the spine comes last. */
  lemma {:induction false} AttachedLast(script: Script, i: nat, p: nat, inside: bool)
    requires IsTree(script) && p + 1 < |script| && OnSpine(script, i, p) && script[p].next == NO_INDEX
    requires inside ==> script[p].For? && script[p].child == NO_INDEX
    requires IsLoose(script[|script| - 1]) && Increasing(Preorder(script, i))
    requires IsTree(Attached(script, p, |script| - 1, inside))
    ensures Preorder(Attached(script, p, |script| - 1, inside), i) == Preorder(script, i) + [|script| - 1]
    decreases Before(script, i)
  {
    if i == p {
      AttachedHere(script, p, inside);
    } else {
      var child, next := Preorder(script, ChildOf(script[i])), Preorder(script, script[i].next);
      Parts(i, child, next);
      if script[i].next == NO_INDEX {
        AttachedLast(script, ChildOf(script[i]), p, inside);
        assert [i] + (child + [|script| - 1]) + [] == ([i] + child + []) + [|script| - 1];
      } else {
        AttachedDeeper(script, i, p, inside);
        AttachedLast(script, script[i].next, p, inside);
        assert [i] + child + (next + [|script| - 1]) == ([i] + child + next) + [|script| - 1];
      }
    }
  }

  /** Before the last sibling, nothing changes inside. */
  lemma AttachedDeeper(script: Script, i: nat, p: nat, inside: bool)
    requires IsTree(script) && p + 1 < |script| && i < |script| && (inside ==> script[p].For?)
    requires OnSpine(script, script[i].next, p)
    requires forall x, y | x in Preorder(script, ChildOf(script[i])) && y in Preorder(script, script[i].next) :: x < y
    requires IsTree(Attached(script, p, |script| - 1, inside))
    ensures Preorder(Attached(script, p, |script| - 1, inside), ChildOf(script[i])) == Preorder(script, ChildOf(script[i]))
  {
    SpineGoesOn(script, script[i].next, p);
    AttachedElsewhere(script, ChildOf(script[i]), p, inside);
  }

  /** What stood on the spine up to the new link still does, and the new statement ends it. */
  lemma {:induction false} SpineKept(script: Script, i: nat, p: nat, inside: bool, q: nat)
    requires IsTree(script) && p + 1 < |script| && OnSpine(script, i, q) && q <= p
    requires inside ==> script[p].For?
    requires IsTree(Attached(script, p, |script| - 1, inside))
    ensures OnSpine(Attached(script, p, |script| - 1, inside), i, q)
    decreases Before(script, i)
  {
    SpineGoesOn(script, i, q);
    if i != q {
      SpineKept(script, if script[i].next == NO_INDEX then ChildOf(script[i]) else script[i].next, p, inside, q);
    }
  }

  lemma {:induction false} SpineExtends(script: Script, i: nat, p: nat, n: nat)
    requires IsTree(script) && p < |script| && OnSpine(script, i, p) && n < |script|
    requires n == if script[p].next == NO_INDEX then ChildOf(script[p]) else script[p].next
    ensures OnSpine(script, i, n)
    decreases Before(script, i)
  {
    if i != p {
      SpineExtends(script, if script[i].next == NO_INDEX then ChildOf(script[i]) else script[i].next, p, n);
    }
  }
}
