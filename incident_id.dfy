// extract_incident_id: two regular-expression searches written out as character scanners.
//   label:    [Ii]ncident\s*[Ii][Dd][:=]\s*([A-Z0-9_-]+)
//   fallback: \b([A-Z][A-Z0-9]*(?:_[A-Z0-9]+){2,})\b
// Both searches return their leftmost match. Word characters (for \b) are taken as ASCII.
// The label pattern as written does not accept the "incident_id:" spelling its own docstring lists;
// ExtractIncidentIdCorrected uses the label [Ii]ncident[\s_]*[Ii][Dd][:=]\s*([A-Z0-9_-]+) instead.
module IncidentId {
  import opened Wrappers
  import opened Strings

  /** The class [A-Z0-9_-] the label's id is drawn from. */
  predicate IsIdChar(c: char) {
    IsUpper(c) || IsDigit(c) || c == '_' || c == '-'
  }

  /** [A-Z0-9], one segment character of the fallback pattern. */
  predicate IsAlnumUpper(c: char) {
    IsUpper(c) || IsDigit(c)
  }

  /** Characters of a fallback token: [A-Z0-9_]. */
  predicate IsTokenChar(c: char) {
    IsAlnumUpper(c) || c == '_'
  }

  /** \w, restricted to ASCII. */
  predicate IsWordChar(c: char) {
    IsUpper(c) || IsLower(c) || IsDigit(c) || c == '_'
  }

  // ---- scanning helpers ------------------------------------------------------

  /** The end of the run of whitespace starting at i (greedy \s*). */
  function SkipSpaces(s: string, i: nat): (j: nat)
    requires i <= |s|
    ensures i <= j <= |s|
    ensures forall k :: i <= k < j ==> IsSpace(s[k])
    ensures j == |s| || !IsSpace(s[j])
    decreases |s| - i
  {
    if i < |s| && IsSpace(s[i]) then SkipSpaces(s, i + 1) else i
  }

  /** The end of the run of [A-Z0-9_-] starting at i (greedy [A-Z0-9_-]+ without the "at least one"). */
  function IdRunEnd(s: string, i: nat): (j: nat)
    requires i <= |s|
    ensures i <= j <= |s|
    ensures forall k :: i <= k < j ==> IsIdChar(s[k])
    ensures j == |s| || !IsIdChar(s[j])
    decreases |s| - i
  {
    if i < |s| && IsIdChar(s[i]) then IdRunEnd(s, i + 1) else i
  }

  /** The end of the run of [A-Z0-9_] starting at i. */
  function TokenEnd(s: string, i: nat): (j: nat)
    requires i <= |s|
    ensures i <= j <= |s|
    ensures forall k :: i <= k < j ==> IsTokenChar(s[k])
    ensures j == |s| || !IsTokenChar(s[j])
    decreases |s| - i
  {
    if i < |s| && IsTokenChar(s[i]) then TokenEnd(s, i + 1) else i
  }

  // ---- the label pattern -----------------------------------------------------

  /** The label pattern tried at position p: "incident" with either case of its first letter, spaces,
      "id" in any case, ':' or '=', spaces, then the longest non-empty run of [A-Z0-9_-]. The two
      greedy \s* are followed by non-space classes, so they never give characters back. */
  function LabelAt(s: string, p: nat): (r: Option<string>)
    ensures r.Some? ==> |r.value| > 0 && forall k :: 0 <= k < |r.value| ==> IsIdChar(r.value[k])
  {
    if p + 8 <= |s| && (s[p] == 'I' || s[p] == 'i') && s[p + 1..p + 8] == "ncident" then
      var a := SkipSpaces(s, p + 8);
      if a + 3 <= |s| && (s[a] == 'I' || s[a] == 'i') && (s[a + 1] == 'D' || s[a + 1] == 'd')
        && (s[a + 2] == ':' || s[a + 2] == '=') then
        var b := SkipSpaces(s, a + 3);
        var c := IdRunEnd(s, b);
        if c > b then Some(s[b..c]) else None
      else None
    else None
  }

  /** re.search of the label pattern from position p on: the leftmost position where it matches. */
  function LabelFrom(s: string, p: nat): (r: Option<string>)
    ensures r.Some? ==> |r.value| > 0 && forall k :: 0 <= k < |r.value| ==> IsIdChar(r.value[k])
    decreases |s| - p
  {
    if p >= |s| then None
    else if LabelAt(s, p).Some? then LabelAt(s, p)
    else LabelFrom(s, p + 1)
  }

  /** The first Some among m(p), m(p + 1), ..., m(n - 1): the shape of a leftmost search. */
  function FirstSome(m: nat -> Option<string>, p: nat, n: nat): Option<string>
    decreases n - p
  {
    if p >= n then None else if m(p).Some? then m(p) else FirstSome(m, p + 1, n)
  }

  /** The position a successful search stops at: no earlier position answers. */
  ghost function FirstPos(m: nat -> Option<string>, p: nat, n: nat): (q: nat)
    requires FirstSome(m, p, n).Some?
    ensures p <= q < n && m(q) == FirstSome(m, p, n)
    ensures forall q' :: p <= q' < q ==> m(q').None?
    decreases n - p
  {
    if m(p).Some? then p else FirstPos(m, p + 1, n)
  }

  /** The label search is the leftmost search over the label pattern's positions. */
  lemma {:induction false} LabelFromIsFirst(s: string, p: nat)
    ensures LabelFrom(s, p) == FirstSome((q: nat) => LabelAt(s, q), p, |s|)
    decreases |s| - p
  {
    if p < |s| && LabelAt(s, p).None? {
      LabelFromIsFirst(s, p + 1);
    }
  }

  /** No label found from p means no position from p matches. */
  lemma {:induction false} LabelFromMissing(s: string, p: nat)
    requires LabelFrom(s, p).None?
    ensures forall q :: p <= q < |s| ==> LabelAt(s, q).None?
    decreases |s| - p
  {
    if p < |s| {
      LabelFromMissing(s, p + 1);
    }
  }

  /** LabelFrom is the leftmost match: it is the match at some position, and no earlier position matches. */
  lemma LabelFromLeftmost(s: string, p: nat)
    ensures LabelFrom(s, p).Some? <==> exists q :: p <= q < |s| && LabelAt(s, q).Some?
    ensures LabelFrom(s, p).Some? ==>
      (exists q :: p <= q < |s| && LabelAt(s, q) == LabelFrom(s, p)
        && forall q' :: p <= q' < q ==> LabelAt(s, q').None?)
  {
    if LabelFrom(s, p).Some? {
      LabelFromIsFirst(s, p);
      var m := (q: nat) => LabelAt(s, q);
      var q := FirstPos(m, p, |s|);
      forall q' | p <= q' < q ensures LabelAt(s, q').None? {
        assert m(q').None?;
      }
      assert LabelAt(s, q) == LabelFrom(s, p);
    } else {
      LabelFromMissing(s, p);
    }
  }

  // ---- the fallback pattern --------------------------------------------------

  /** [A-Z0-9]*(?:_[A-Z0-9]+){2,} over t[i..], `unders` underscores seen so far, `afterUnder` when
      the previous character was an underscore. */
  predicate ShapeFrom(t: string, i: nat, unders: nat, afterUnder: bool)
    decreases |t| - i
  {
    if i >= |t| then unders >= 2 && !afterUnder
    else if t[i] == '_' then !afterUnder && ShapeFrom(t, i + 1, unders + 1, true)
    else IsAlnumUpper(t[i]) && ShapeFrom(t, i + 1, unders, false)
  }

  /** A token of the fallback pattern: [A-Z][A-Z0-9]*(?:_[A-Z0-9]+){2,}. */
  predicate IdShape(t: string) {
    |t| > 0 && IsUpper(t[0]) && ShapeFrom(t, 1, 0, false)
  }

  function CountUnderscores(t: string, i: nat): nat
    decreases |t| - i
  {
    if i >= |t| then 0 else (if t[i] == '_' then 1 else 0) + CountUnderscores(t, i + 1)
  }

  /** What ShapeFrom accepts: characters of [A-Z0-9_], no two underscores in a row, none at the end,
      and at least two underscores in all. */
  lemma {:induction false} ShapeFromMeans(t: string, i: nat, unders: nat, afterUnder: bool)
    requires i <= |t|
    requires ShapeFrom(t, i, unders, afterUnder)
    ensures forall k :: i <= k < |t| ==> IsTokenChar(t[k])
    ensures forall k :: i <= k < |t| - 1 ==> !(t[k] == '_' && t[k + 1] == '_')
    ensures afterUnder && i < |t| ==> t[i] != '_'
    ensures |t| > 0 && i < |t| ==> t[|t| - 1] != '_'
    ensures unders + CountUnderscores(t, i) >= 2
    decreases |t| - i
  {
    if i < |t| {
      if t[i] == '_' {
        ShapeFromMeans(t, i + 1, unders + 1, true);
      } else {
        ShapeFromMeans(t, i + 1, unders, false);
      }
    }
  }

  /** A fallback id is an upper-case-led token of segments with at least two underscores,
      none doubled and none trailing. */
  lemma IdShapeMeans(t: string)
    requires IdShape(t)
    ensures IsUpper(t[0]) && forall k :: 0 <= k < |t| ==> IsTokenChar(t[k])
    ensures CountUnderscores(t, 0) >= 2
    ensures t[|t| - 1] != '_' && forall k :: 0 <= k < |t| - 1 ==> !(t[k] == '_' && t[k + 1] == '_')
  {
    ShapeFromMeans(t, 1, 0, false);
    assert CountUnderscores(t, 0) == CountUnderscores(t, 1);
  }

  /** \b before position p, where s[p] is a word character. */
  predicate BoundaryBefore(s: string, p: nat)
    requires p <= |s|
  {
    p == 0 || !IsWordChar(s[p - 1])
  }

  /** \b after position q, where s[q - 1] is a word character. */
  predicate BoundaryAt(s: string, q: nat)
    requires q <= |s|
  {
    q == |s| || !IsWordChar(s[q])
  }

  /** The fallback pattern tried at position p. Every character of the token is a word character,
      so the closing \b can only fall at the end of the maximal [A-Z0-9_] run: the match is that
      whole run or nothing. */
  function FallbackAt(s: string, p: nat): (r: Option<string>)
    ensures r.Some? ==> IdShape(r.value)
  {
    if p < |s| && BoundaryBefore(s, p) && IsUpper(s[p]) then
      var q := TokenEnd(s, p);
      if BoundaryAt(s, q) && IdShape(s[p..q]) then Some(s[p..q]) else None
    else None
  }

  /** re.search of the fallback pattern from position p on. */
  function FallbackFrom(s: string, p: nat): (r: Option<string>)
    ensures r.Some? ==> IdShape(r.value)
    decreases |s| - p
  {
    if p >= |s| then None
    else if FallbackAt(s, p).Some? then FallbackAt(s, p)
    else FallbackFrom(s, p + 1)
  }

  /** A fallback match is a whole token standing between word boundaries. */
  lemma {:induction false} FallbackFromMatch(s: string, p: nat)
    ensures FallbackFrom(s, p).Some? ==>
      (exists q :: p <= q < |s| && FallbackAt(s, q) == FallbackFrom(s, p)
        && forall q' :: p <= q' < q ==> FallbackAt(s, q').None?)
    decreases |s| - p
  {
    if p < |s| && FallbackAt(s, p).None? {
      FallbackFromMatch(s, p + 1);
      if FallbackFrom(s, p).Some? {
        var q :| p + 1 <= q < |s| && FallbackAt(s, q) == FallbackFrom(s, p + 1)
          && forall q' :: p + 1 <= q' < q ==> FallbackAt(s, q').None?;
        assert forall q' :: p <= q' < q ==> FallbackAt(s, q').None?;
      }
    }
  }

  /** What a match at a position is: the text there, bounded on both sides. */
  lemma FallbackAtMeans(s: string, p: nat)
    requires FallbackAt(s, p).Some?
    ensures var t := FallbackAt(s, p).value;
      p + |t| <= |s| && s[p..p + |t|] == t && BoundaryBefore(s, p) && BoundaryAt(s, p + |t|)
      && IsUpper(t[0]) && CountUnderscores(t, 0) >= 2
  {
    IdShapeMeans(FallbackAt(s, p).value);
  }

  // ---- extract_incident_id ---------------------------------------------------

  /** extract_incident_id: None for empty text; the label's id if the label occurs; otherwise the
      first well-bounded all-caps token with two or more underscores; otherwise None. */
  function ExtractIncidentId(text: string): (r: Option<string>)
    ensures r.Some? ==> |r.value| > 0 && forall k :: 0 <= k < |r.value| ==> IsIdChar(r.value[k])
  {
    if text == "" then None
    else if LabelFrom(text, 0).Some? then LabelFrom(text, 0)
    else
      var f := FallbackFrom(text, 0);
      if f.Some? then IdShapeMeans(f.value); f else None
  }

  /** Empty text yields nothing; a label anywhere wins over any all-caps token; without a label the
      result is the fallback search's. */
  lemma ExtractOrder(text: string)
    ensures text == "" ==> ExtractIncidentId(text).None?
    ensures LabelFrom(text, 0).Some? ==> ExtractIncidentId(text) == LabelFrom(text, 0)
    ensures text != "" && LabelFrom(text, 0).None? ==> ExtractIncidentId(text) == FallbackFrom(text, 0)
  {
  }

  /** A label written as "incident_id: X" is not matched by the label pattern (its underscore is
      neither whitespace nor part of "incident"), and an id with a single underscore is too short
      for the fallback: "incident_id: ABC_123" yields no id. */
  lemma UnderscoreLabelNotMatched()
    ensures ExtractIncidentId("incident_id: ABC_123").None?
  {
    var s := "incident_id: ABC_123";
    UnderscoreLabelNoLabel();
    UnderscoreLabelNoToken();
    LabelFromLeftmost(s, 0);
    FallbackFromNone(s, 0);
  }

  lemma UnderscoreLabelNoLabel()
    ensures forall p :: 0 <= p < 20 ==> LabelAt("incident_id: ABC_123", p).None?
  {
    var s := "incident_id: ABC_123";
    forall p | 0 <= p < 20 ensures LabelAt(s, p).None? {
      if p == 0 {
        assert s[8] == '_';
        assert SkipSpaces(s, 8) == 8;
      } else if p == 3 || p == 9 {
        assert s[p + 1] == 'd';
        assert s[p + 1..p + 8][0] == 'd';
      } else {
        assert s[p] != 'I' && s[p] != 'i';
      }
    }
  }

  lemma UnderscoreLabelNoToken()
    ensures forall p :: 0 <= p < 20 ==> FallbackAt("incident_id: ABC_123", p).None?
  {
    var s := "incident_id: ABC_123";
    forall p | 0 <= p < 20 ensures FallbackAt(s, p).None? {
      if p == 13 {
        assert TokenEnd(s, 20) == 20;
        assert TokenEnd(s, 13) == 20;
        var t := s[13..20];
        assert t == "ABC_123";
        assert !ShapeFrom(t, 4, 1, true) by {
          ShapeFromCount(t, 4, 1, true);
        }
      } else if p == 14 || p == 15 || p == 16 || p == 17 || p == 18 || p == 19 {
        assert !BoundaryBefore(s, p);
      } else {
        assert !IsUpper(s[p]);
      }
    }
  }

  // ---- the corrected label -------------------------------------------------

  /** The end of the run of whitespace and underscores starting at i (greedy [\s_]*). */
  function SkipSeps(s: string, i: nat): (j: nat)
    requires i <= |s|
    ensures i <= j <= |s|
    ensures forall k :: i <= k < j ==> IsSpace(s[k]) || s[k] == '_'
    ensures j == |s| || !(IsSpace(s[j]) || s[j] == '_')
    decreases |s| - i
  {
    if i < |s| && (IsSpace(s[i]) || s[i] == '_') then SkipSeps(s, i + 1) else i
  }

  /** The label pattern with "incident" and "id" separated by any run of whitespace and
      underscores, so that "incident_id: X" is read as the docstring of extract_incident_id says. */
  function LabelAtCorrected(s: string, p: nat): (r: Option<string>)
    ensures r.Some? ==> |r.value| > 0 && forall k :: 0 <= k < |r.value| ==> IsIdChar(r.value[k])
  {
    if p + 8 <= |s| && (s[p] == 'I' || s[p] == 'i') && s[p + 1..p + 8] == "ncident" then
      var a := SkipSeps(s, p + 8);
      if a + 3 <= |s| && (s[a] == 'I' || s[a] == 'i') && (s[a + 1] == 'D' || s[a + 1] == 'd')
        && (s[a + 2] == ':' || s[a + 2] == '=') then
        var b := SkipSpaces(s, a + 3);
        var c := IdRunEnd(s, b);
        if c > b then Some(s[b..c]) else None
      else None
    else None
  }

  /** The leftmost match of the corrected label from position p on. */
  function LabelFromCorrected(s: string, p: nat): (r: Option<string>)
    ensures r.Some? ==> |r.value| > 0 && forall k :: 0 <= k < |r.value| ==> IsIdChar(r.value[k])
    decreases |s| - p
  {
    if p >= |s| then None
    else if LabelAtCorrected(s, p).Some? then LabelAtCorrected(s, p)
    else LabelFromCorrected(s, p + 1)
  }

  /** extract_incident_id with the corrected label; the fallback search is unchanged. */
  function ExtractIncidentIdCorrected(text: string): (r: Option<string>)
    ensures r.Some? ==> |r.value| > 0 && forall k :: 0 <= k < |r.value| ==> IsIdChar(r.value[k])
    ensures text == "" ==> r.None?
    ensures LabelFromCorrected(text, 0).Some? ==> r == LabelFromCorrected(text, 0)
    ensures text != "" && LabelFromCorrected(text, 0).None? ==> r == FallbackFrom(text, 0)
  {
    if text == "" then None
    else if LabelFromCorrected(text, 0).Some? then LabelFromCorrected(text, 0)
    else
      var f := FallbackFrom(text, 0);
      if f.Some? then IdShapeMeans(f.value); f else None
  }

  /** A run of whitespace ending at a character that is neither whitespace nor '_' is also the
      whole run of whitespace and underscores. */
  lemma {:induction false} SkipSepsAtSpaces(s: string, i: nat)
    requires i <= |s|
    requires SkipSpaces(s, i) < |s| && s[SkipSpaces(s, i)] != '_'
    ensures SkipSeps(s, i) == SkipSpaces(s, i)
    decreases |s| - i
  {
    if i < |s| && IsSpace(s[i]) {
      SkipSepsAtSpaces(s, i + 1);
    }
  }

  /** Wherever the label as written matches, the corrected label matches the same id. */
  lemma CorrectedLabelExtends(s: string, p: nat)
    requires LabelAt(s, p).Some?
    ensures LabelAtCorrected(s, p) == LabelAt(s, p)
  {
    SkipSepsAtSpaces(s, p + 8);
  }

  /** The docstring's second example: "incident_id: ABC_123" now yields ABC_123. */
  lemma UnderscoreLabelCorrected()
    ensures ExtractIncidentIdCorrected("incident_id: ABC_123") == Some("ABC_123")
  {
    var s := "incident_id: ABC_123";
    assert s[1..8] == "ncident";
    assert SkipSeps(s, 9) == 9;
    assert SkipSeps(s, 8) == 9;
    assert SkipSpaces(s, 13) == 13;
    assert SkipSpaces(s, 12) == 13;
    assert IdRunEnd(s, 20) == 20;
    assert IdRunEnd(s, 17) == 20;
    assert IdRunEnd(s, 14) == 20;
    assert IdRunEnd(s, 13) == 20;
    assert s[13..20] == "ABC_123";
    assert LabelAtCorrected(s, 0) == Some("ABC_123");
  }

  /** From a position past which no underscore occurs, the underscore count can no longer grow. */
  lemma {:induction false} ShapeFromCount(t: string, i: nat, unders: nat, afterUnder: bool)
    requires i <= |t|
    requires forall k :: i <= k < |t| ==> t[k] != '_'
    ensures ShapeFrom(t, i, unders, afterUnder) ==> unders >= 2
    decreases |t| - i
  {
    if i < |t| {
      ShapeFromCount(t, i + 1, unders, false);
    }
  }

  /** A label wins over an all-caps token appearing before it. */
  lemma LabelBeatsEarlierToken()
    ensures ExtractIncidentId("AB_C_D Incident ID: F-7") == Some("F-7")
  {
    var s := "AB_C_D Incident ID: F-7";
    ExampleLabelAt();
    ExampleNoEarlierLabel();
    LabelFromPrefixUnmatched(s, 0, 7);
  }

  lemma ExampleLabelAt()
    ensures LabelAt("AB_C_D Incident ID: F-7", 7) == Some("F-7")
  {
    var s := "AB_C_D Incident ID: F-7";
    assert s[8..15] == "ncident";
    assert SkipSpaces(s, 16) == 16;
    assert SkipSpaces(s, 15) == 16;
    assert SkipSpaces(s, 20) == 20;
    assert SkipSpaces(s, 19) == 20;
    assert IdRunEnd(s, 23) == 23;
    assert IdRunEnd(s, 22) == 23;
    assert IdRunEnd(s, 21) == 23;
    assert IdRunEnd(s, 20) == 23;
    assert s[20..23] == "F-7";
  }

  lemma ExampleNoEarlierLabel()
    ensures forall p :: 0 <= p < 7 ==> LabelAt("AB_C_D Incident ID: F-7", p).None?
  {
    var s := "AB_C_D Incident ID: F-7";
    forall p | 0 <= p < 7 ensures LabelAt(s, p).None? {
      assert s[p] != 'I' && s[p] != 'i';
    }
  }

  /** Without a label, a bounded all-caps id with two underscores is found. */
  lemma TokenFoundWithoutLabel()
    ensures ExtractIncidentId("at RK_WATER_01.") == Some("RK_WATER_01")
  {
    var s := "at RK_WATER_01.";
    forall p | 0 <= p < |s| ensures LabelAt(s, p).None? {
      assert s[p] != 'I' && s[p] != 'i';
    }
    LabelFromLeftmost(s, 0);
    ExampleTokenAt();
    forall p | 0 <= p < 3 ensures FallbackAt(s, p).None? {
      assert !IsUpper(s[p]);
    }
    FallbackFromPrefixUnmatched(s, 0, 3);
  }

  lemma ExampleTokenAt()
    ensures FallbackAt("at RK_WATER_01.", 3) == Some("RK_WATER_01")
  {
    var s := "at RK_WATER_01.";
    ExampleTokenEnd();
    ExampleShape();
    assert s[3..14] == "RK_WATER_01";
  }

  lemma ExampleTokenEnd()
    ensures TokenEnd("at RK_WATER_01.", 3) == 14
  {
    var s := "at RK_WATER_01.";
    assert TokenEnd(s, 14) == 14;
    assert TokenEnd(s, 12) == 14;
    assert TokenEnd(s, 10) == 14;
    assert TokenEnd(s, 8) == 14;
    assert TokenEnd(s, 6) == 14;
    assert TokenEnd(s, 4) == 14;
  }

  lemma ExampleShape()
    ensures IdShape("RK_WATER_01")
  {
    var t := "RK_WATER_01";
    assert ShapeFrom(t, 11, 2, false);
    assert ShapeFrom(t, 9, 2, true);
    assert ShapeFrom(t, 8, 1, false);
    assert ShapeFrom(t, 6, 1, false);
    assert ShapeFrom(t, 4, 1, false);
    assert ShapeFrom(t, 2, 0, false);
  }

  /** When positions p..q-1 do not match, the fallback search from p is the search from q. */
  lemma {:induction false} FallbackFromPrefixUnmatched(s: string, p: nat, q: nat)
    requires p <= q <= |s|
    requires forall k :: p <= k < q ==> FallbackAt(s, k).None?
    ensures FallbackFrom(s, p) == FallbackFrom(s, q)
    decreases q - p
  {
    if p < q {
      FallbackFromPrefixUnmatched(s, p + 1, q);
    }
  }

  /** When positions p..q-1 do not match, the search from p is the search from q. */
  lemma {:induction false} LabelFromPrefixUnmatched(s: string, p: nat, q: nat)
    requires p <= q <= |s|
    requires forall k :: p <= k < q ==> LabelAt(s, k).None?
    ensures LabelFrom(s, p) == LabelFrom(s, q)
    decreases q - p
  {
    if p < q {
      LabelFromPrefixUnmatched(s, p + 1, q);
    }
  }

  /** No position from p on matches: the fallback search finds nothing. */
  lemma {:induction false} FallbackFromNone(s: string, p: nat)
    requires forall q :: p <= q < |s| ==> FallbackAt(s, q).None?
    ensures FallbackFrom(s, p).None?
    decreases |s| - p
  {
    if p < |s| {
      FallbackFromNone(s, p + 1);
    }
  }
}
