/** Deterministic per-step keys, and exactly which step names keep them apart. */
module Idempotency {
  import opened Wrappers

  /** The character class an identity component is drawn from. */
  predicate IsSafeChar(c: char)
  {
    'A' <= c <= 'Z' || 'a' <= c <= 'z' || '0' <= c <= '9' || c in {'.', '_', ':', '-'}
  }

  predicate IsSafe(s: string)
  {
    |s| > 0 && forall i | 0 <= i < |s| :: IsSafeChar(s[i])
  }

  predicate ColonFree(s: string) { forall i | 0 <= i < |s| :: s[i] != ':' }

  /** The canonical key of a step, `<runId>:<stepName>`; throws on an unsafe component. */
  function DeriveKey(runId: string, stepName: string): Result<string>
  {
    if runId == "" || stepName == "" then Err(EmptyIdentity)
    else if !IsSafe(runId) || !IsSafe(stepName) then Err(UnsafeIdentity)
    else Ok(runId + ":" + stepName)
  }

  lemma DeriveSafe(runId: string, stepName: string)
    requires IsSafe(runId) && IsSafe(stepName)
    ensures DeriveKey(runId, stepName) == Ok(runId + ":" + stepName)
  {
  }

  /** asIdempotencyKey accepts any stored text with a colon. */
  predicate IsKeyText(raw: string) { ':' in raw }

  /** The shorter of two run ids is a prefix of the longer when their keys agree. */
  lemma KeySplit(r1: string, n1: string, r2: string, n2: string)
    requires r1 + ":" + n1 == r2 + ":" + n2 && |r1| < |r2|
    ensures r2 == r1 + ":" + r2[|r1| + 1..] && n1 == r2[|r1| + 1..] + ":" + n2
    ensures |r2| - |r1| - 1 < |n1| && n1[|r2| - |r1| - 1] == ':'
  {
    var k := r1 + ":" + n1;
    assert r2 == k[..|r2|];
    assert k[|r1|] == ':';
    assert r2[..|r1|] == r1;
    assert n1 == k[|r1| + 1..];
    assert k == r2 + (":" + n2);
    assert k[|r1| + 1..] == r2[|r1| + 1..] + (":" + n2);
  }

  lemma KeySame(r1: string, n1: string, r2: string, n2: string)
    requires r1 + ":" + n1 == r2 + ":" + n2 && |r1| == |r2|
    ensures r1 == r2 && n1 == n2
  {
    var k := r1 + ":" + n1;
    assert r1 == k[..|r1|] && r2 == k[..|r1|];
    assert n1 == k[|r1| + 1..] && n2 == k[|r1| + 1..];
  }

  /** With colon-free step names the key determines both the run and the step. */
  lemma KeyInjective(r1: string, n1: string, r2: string, n2: string)
    requires ColonFree(n1) && ColonFree(n2)
    requires DeriveKey(r1, n1).Ok? && DeriveKey(r1, n1) == DeriveKey(r2, n2)
    ensures r1 == r2 && n1 == n2
  {
    if |r1| < |r2| {
      KeySplit(r1, n1, r2, n2);
      assert false;
    } else if |r2| < |r1| {
      KeySplit(r2, n2, r1, n1);
      assert false;
    } else {
      KeySame(r1, n1, r2, n2);
    }
  }

  /** Some two different steps drawn from `names` share a key. */
  ghost predicate KeysCollide(names: set<string>)
  {
    exists r1, n1, r2, n2 ::
      n1 in names && n2 in names && (r1, n1) != (r2, n2) && DeriveKey(r1, n1).Ok?
        && DeriveKey(r1, n1) == DeriveKey(r2, n2)
  }

  /** n1 ends with a colon and n2: what is left of n1 can move into the run id. */
  predicate ColonSuffix(n1: string, n2: string)
  {
    |n2| < |n1| && n1[|n1| - |n2|..] == n2 && n1[|n1| - |n2| - 1] == ':'
  }

  lemma CollisionNeedsSuffix(r1: string, n1: string, r2: string, n2: string)
    requires (r1, n1) != (r2, n2) && DeriveKey(r1, n1).Ok? && DeriveKey(r1, n1) == DeriveKey(r2, n2)
    ensures ColonSuffix(n1, n2) || ColonSuffix(n2, n1)
  {
    if |r1| < |r2| {
      KeySplit(r1, n1, r2, n2);
    } else if |r2| < |r1| {
      KeySplit(r2, n2, r1, n1);
    } else {
      KeySame(r1, n1, r2, n2);
    }
  }

  lemma SuffixCollides(n1: string, n2: string) returns (r2: string)
    requires IsSafe(n1) && IsSafe(n2) && ColonSuffix(n1, n2)
    ensures ("a", n1) != (r2, n2) && DeriveKey("a", n1).Ok? && DeriveKey("a", n1) == DeriveKey(r2, n2)
  {
    var m := n1[..|n1| - |n2| - 1];
    r2 := "a:" + m;
    assert n1 == m + ":" + n2;
    assert "a" + ":" + n1 == r2 + ":" + n2;
    forall i | 0 <= i < |r2| ensures IsSafeChar(r2[i]) { if i >= 2 { assert r2[i] == n1[i - 2]; } }
  }

  /** Keys over a table of safe step names are injective for every run id exactly when no name
      of the table ends with a colon followed by another. Allowing ':' in both parts of the key
      makes the plain claim of injectivity false. */
  lemma KeysCollideExactly(names: set<string>)
    requires forall n | n in names :: IsSafe(n)
    ensures KeysCollide(names) <==> exists n1, n2 | n1 in names && n2 in names :: ColonSuffix(n1, n2)
  {
    if KeysCollide(names) {
      var r1, n1, r2, n2 :|
        n1 in names && n2 in names && (r1, n1) != (r2, n2) && DeriveKey(r1, n1).Ok?
          && DeriveKey(r1, n1) == DeriveKey(r2, n2);
      CollisionNeedsSuffix(r1, n1, r2, n2);
    }
    if n1, n2 :| n1 in names && n2 in names && ColonSuffix(n1, n2) {
      var r2 := SuffixCollides(n1, n2);
    }
  }

  /** A concrete pair of steps with one key. */
  lemma CollisionExample()
    ensures DeriveKey("a:b", "c").Ok? && DeriveKey("a:b", "c") == DeriveKey("a", "b:c")
  {
    assert "a:b" + ":" + "c" == "a" + ":" + "b:c";
  }

  /** The step name a key was derived for, when step names hold no colon: the part after the last one. */
  function KeyStep(key: string): string
  {
    if |key| == 0 || key[|key| - 1] == ':' then "" else KeyStep(key[..|key| - 1]) + [key[|key| - 1]]
  }

  lemma {:induction false} KeyStepOf(runId: string, stepName: string)
    requires ColonFree(stepName)
    ensures KeyStep(runId + ":" + stepName) == stepName
  {
    var key := runId + ":" + stepName;
    if |stepName| == 0 {
      assert key[|key| - 1] == ':';
    } else {
      var shorter := stepName[..|stepName| - 1];
      KeyStepOf(runId, shorter);
      assert key[..|key| - 1] == runId + ":" + shorter;
      assert shorter + [key[|key| - 1]] == stepName;
    }
  }
}
