/** Normalisation of crawl-target values (internal/datasource/usecase/helpers.go) and of
    dispatch keywords (internal/execution/usecase/helpers.go). */
module Values {
  import opened Text
  import opened Model

  /** The values kept from a list: trimmed, non-blank and, when asked, without repetitions. */
  function Normalized(values: seq<string>, dedupe: bool): seq<string> {
    if values == [] then []
    else
      var kept := Normalized(values[..|values| - 1], dedupe);
      var trimmed := TrimSpace(values[|values| - 1]);
      if trimmed == "" || (dedupe && trimmed in kept) then kept else kept + [trimmed]
  }

  method NormalizeTargetValues(values: seq<string>, dedupe: bool) returns (out: seq<string>)
    ensures out == Normalized(values, dedupe)
  {
    out := [];
    var seen: set<string> := {};
    for i := 0 to |values|
      invariant out == Normalized(values[..i], dedupe)
      invariant dedupe ==> forall s :: s in seen <==> s in out
    {
      assert values[..i + 1][..i] == values[..i];
      var trimmed := TrimSpace(values[i]);
      if trimmed == "" {
        continue;
      }
      if dedupe {
        if trimmed in seen {
          continue;
        }
        seen := seen + {trimmed};
      }
      out := out + [trimmed];
    }
    assert values[..|values|] == values;
  }

  /** First position whose trimmed value is `s`. */
  ghost predicate FirstAt(values: seq<string>, s: string, i: nat) {
    i < |values| && TrimSpace(values[i]) == s && forall j :: 0 <= j < i ==> TrimSpace(values[j]) != s
  }

  ghost predicate Distinct<T>(s: seq<T>) {
    forall i, j :: 0 <= i < j < |s| ==> s[i] != s[j]
  }

  /** Some value trims to `s`. */
  ghost predicate Occurs(values: seq<string>, s: string) {
    exists i :: 0 <= i < |values| && TrimSpace(values[i]) == s
  }

  lemma OccursSplits(values: seq<string>, n: nat, s: string)
    requires n + 1 == |values|
    ensures Occurs(values, s) <==> Occurs(values[..n], s) || TrimSpace(values[n]) == s
  {
    if Occurs(values[..n], s) {
      var i :| 0 <= i < n && TrimSpace(values[..n][i]) == s;
      assert TrimSpace(values[i]) == s;
    }
    if Occurs(values, s) {
      var i :| 0 <= i < |values| && TrimSpace(values[i]) == s;
      assert i < n ==> TrimSpace(values[..n][i]) == s;
    }
  }

  lemma OccursAt(values: seq<string>, n: nat, i: nat)
    requires i < |values| && n <= |values|
    ensures i < n ==> Occurs(values[..n], TrimSpace(values[i]))
  {
    assert i < n ==> values[..n][i] == values[i];
  }

  /** Exactly the non-blank trimmed inputs survive, each of them trimmed. */
  lemma {:induction false} NormalizedMembers(values: seq<string>, dedupe: bool, s: string)
    ensures s in Normalized(values, dedupe) <==> s != "" && Occurs(values, s)
  {
    if values != [] {
      NormalizedMembers(values[..|values| - 1], dedupe, s);
      OccursSplits(values, |values| - 1, s);
    }
  }

  lemma {:induction false} NormalizedDistinct(values: seq<string>)
    ensures Distinct(Normalized(values, true))
  {
    if values != [] {
      NormalizedDistinct(values[..|values| - 1]);
    }
  }

  /** Deduplicated values keep the order in which they first occur. */
  lemma {:induction false} NormalizedKeepsOrder(values: seq<string>, a: nat, b: nat, i: nat, j: nat)
    requires a < b < |Normalized(values, true)|
    requires FirstAt(values, Normalized(values, true)[a], i)
    requires FirstAt(values, Normalized(values, true)[b], j)
    ensures i < j
  {
    var n := |values| - 1;
    var kept := Normalized(values[..n], true);
    var out := Normalized(values, true);
    NormalizedMembers(values[..n], true, out[a]);
    NormalizedMembers(values[..n], true, out[b]);
    assert out[a] in kept;
    FirstInPrefix(values, n, out[a], i);
    if b < |kept| {
      assert out[b] in kept;
      FirstInPrefix(values, n, out[b], j);
      NormalizedKeepsOrder(values[..n], a, b, i, j);
    } else {
      OccursAt(values, n, j);
    }
  }

  lemma FirstInPrefix(values: seq<string>, n: nat, s: string, i: nat)
    requires n <= |values| && FirstAt(values, s, i) && Occurs(values[..n], s)
    ensures i < n && FirstAt(values[..n], s, i)
  {
    var k :| 0 <= k < n && TrimSpace(values[..n][k]) == s;
    assert TrimSpace(values[k]) == s;
  }

  ghost predicate IsNormal(values: seq<string>, dedupe: bool) {
    && (forall i :: 0 <= i < |values| ==> values[i] != "" && TrimSpace(values[i]) == values[i])
    && (dedupe ==> Distinct(values))
  }

  lemma {:induction false} NormalizedIsNormal(values: seq<string>, dedupe: bool)
    ensures IsNormal(Normalized(values, dedupe), dedupe)
  {
    if values != [] {
      NormalizedIsNormal(values[..|values| - 1], dedupe);
      TrimSpaceIdempotent(values[|values| - 1]);
    }
  }

  lemma {:induction false} NormalIsFixed(values: seq<string>, dedupe: bool)
    requires IsNormal(values, dedupe)
    ensures Normalized(values, dedupe) == values
  {
    if values != [] {
      var n := |values| - 1;
      NormalIsFixed(values[..n], dedupe);
      assert values == values[..n] + [values[n]];
    }
  }

  lemma NormalizeIdempotent(values: seq<string>, dedupe: bool)
    ensures Normalized(Normalized(values, dedupe), dedupe) == Normalized(values, dedupe)
  {
    NormalizedIsNormal(values, dedupe);
    NormalIsFixed(Normalized(values, dedupe), dedupe);
  }

  /** `prepareTargetValues`; `isUrl` stands for Go's URL parser accepting a value. */
  function Prepared(targetType: TargetType, values: seq<string>, isUrl: string -> bool): Option<seq<string>> {
    var normalized := Normalized(values, targetType.Keyword?);
    if normalized == [] then None
    else if !targetType.Keyword? && exists i :: 0 <= i < |normalized| && !isUrl(normalized[i]) then None
    else Some(normalized)
  }

  /** Values prepare exactly when some value is not blank and, unless they are keywords, every value that is
      not blank is a URL after trimming. */
  lemma PreparedExactly(targetType: TargetType, values: seq<string>, isUrl: string -> bool)
    ensures Prepared(targetType, values, isUrl).Some? <==>
            && (exists i :: 0 <= i < |values| && TrimSpace(values[i]) != "")
            && (targetType != Keyword ==> forall i :: 0 <= i < |values| && TrimSpace(values[i]) != "" ==> isUrl(TrimSpace(values[i])))
    ensures Prepared(targetType, values, isUrl).Some? ==> Prepared(targetType, values, isUrl).value == Normalized(values, targetType == Keyword)
  {
    var out := Normalized(values, targetType.Keyword?);
    forall s ensures s in out <==> s != "" && Occurs(values, s) {
      NormalizedMembers(values, targetType.Keyword?, s);
    }
    forall i | 0 <= i < |values| && TrimSpace(values[i]) != "" ensures TrimSpace(values[i]) in out {
      assert Occurs(values, TrimSpace(values[i]));
    }
    if out != [] {
      assert out[0] in out;
    }
    forall i | 0 <= i < |out| ensures out[i] != "" && Occurs(values, out[i]) {
      assert out[i] in out;
    }
  }

  /** `areStringSlicesEqual`. */
  predicate SlicesEqual(left: seq<string>, right: seq<string>) {
    |left| == |right| && forall i :: 0 <= i < |left| ==> TrimSpace(left[i]) == TrimSpace(right[i])
  }

  /** On normal lists the immutability check is list equality, so a different list is refused. */
  lemma SlicesEqualOnNormal(left: seq<string>, right: seq<string>, dedupe: bool)
    requires IsNormal(left, dedupe) && IsNormal(right, dedupe)
    ensures SlicesEqual(left, right) <==> left == right
  {
    if SlicesEqual(left, right) {
      forall i | 0 <= i < |left| ensures left[i] == right[i] {
        assert TrimSpace(left[i]) == TrimSpace(right[i]);
      }
    }
  }

  /** `extractKeywords`. */
  method ExtractKeywords(values: seq<string>) returns (keywords: seq<string>)
    ensures keywords == Normalized(values, false)
  {
    keywords := [];
    for i := 0 to |values|
      invariant keywords == Normalized(values[..i], false)
    {
      assert values[..i + 1][..i] == values[..i];
      var keyword := TrimSpace(values[i]);
      if keyword == "" {
        continue;
      }
      keywords := keywords + [keyword];
    }
    assert values[..|values|] == values;
  }

  /** A stored keyword list is dispatched unchanged: one keyword for each distinct non-blank
      trimmed value it was created from, in order. */
  lemma StoredKeywordsAreDispatched(raw: seq<string>)
    ensures Normalized(Normalized(raw, true), false) == Normalized(raw, true)
  {
    NormalizedIsNormal(raw, true);
    NormalIsFixed(Normalized(raw, true), false);
  }
}
