/** Sums over two equally long enemy lists, position by position, used to account for what
    a collision phase did to the enemies: how many were destroyed, how many hit points they
    lost in total, and how many points their destruction is worth. */
module Ledger {
  import opened Types
  import opened Rules

  function SumOver(before: seq<Enemy>, after: seq<Enemy>, f: (Enemy, Enemy) -> int): int
    requires |before| == |after|
    decreases |before|
  {
    if |before| == 0 then 0 else f(before[0], after[0]) + SumOver(before[1..], after[1..], f)
  }

  /** 1 when an enemy went from active to inactive. */
  function Destroyed(e: Enemy, e': Enemy): int
  {
    if e.active && !e'.active then 1 else 0
  }

  /** The score an enemy that went from active to inactive is worth. */
  function Bounty(e: Enemy, e': Enemy): int
  {
    if e.active && !e'.active then Points(e.kind) else 0
  }

  /** Hit points an enemy lost. */
  function Wound(e: Enemy, e': Enemy): int
  {
    e.hp - e'.hp
  }

  /** A list compared with itself sums to zero. */
  lemma {:induction false} SumOverUnchanged(s: seq<Enemy>, f: (Enemy, Enemy) -> int)
    requires forall i :: 0 <= i < |s| ==> f(s[i], s[i]) == 0
    ensures SumOver(s, s, f) == 0
    decreases |s|
  {
    if |s| > 0 {
      SumOverUnchanged(s[1..], f);
    }
  }

  /** Changing one position contributes exactly that position's term. */
  lemma {:induction false} SumOverUpdate(s: seq<Enemy>, j: nat, e: Enemy, f: (Enemy, Enemy) -> int)
    requires j < |s|
    requires forall i :: 0 <= i < |s| ==> f(s[i], s[i]) == 0
    ensures SumOver(s, s[j := e], f) == f(s[j], e)
    decreases |s|
  {
    if j == 0 {
      assert s[j := e][1..] == s[1..];
      SumOverUnchanged(s[1..], f);
    } else {
      assert s[j := e][1..] == s[1..][j - 1 := e];
      SumOverUpdate(s[1..], j - 1, e, f);
    }
  }

  /** Sums compose along a chain a, b, c when every position's term does. */
  lemma {:induction false} SumOverChain(a: seq<Enemy>, b: seq<Enemy>, c: seq<Enemy>, f: (Enemy, Enemy) -> int)
    requires |a| == |b| == |c|
    requires forall i :: 0 <= i < |a| ==> f(a[i], c[i]) == f(a[i], b[i]) + f(b[i], c[i])
    ensures SumOver(a, c, f) == SumOver(a, b, f) + SumOver(b, c, f)
    decreases |a|
  {
    if |a| > 0 {
      SumOverChain(a[1..], b[1..], c[1..], f);
    }
  }

  lemma {:induction false} SumOverNonNegative(a: seq<Enemy>, b: seq<Enemy>, f: (Enemy, Enemy) -> int)
    requires |a| == |b|
    requires forall i :: 0 <= i < |a| ==> f(a[i], b[i]) >= 0
    ensures SumOver(a, b, f) >= 0
    decreases |a|
  {
    if |a| > 0 {
      SumOverNonNegative(a[1..], b[1..], f);
    }
  }
}
