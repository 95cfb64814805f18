/**
 internal/payloadhash: the closed hashed payload, its canonical object and its digest.
 RFC 8785 canonicalization followed by SHA-256 is one function `hash` of the object
 value; object keys are a map, so their order cannot matter (section 3.2.3 of RFC 8785).
 */
module PayloadHash {
  import opened Wrappers
  import opened Text
  import opened Sorting
  import opened Json

  type Hash = Object -> string

  const CLOSED_FIELDS: seq<string> := [
    "schema_version", "crypto_policy_id", "required_posture", "user_constraints",
    "solution_profile_ref", "accepted_provider_snapshot", "accepted_findings"
  ]

  const FINDINGS_FIELD: string := "accepted_findings"

  datatype Reason =
    | NotObject | MissingField | UnknownField | NullForbidden | NumberForbidden
    | UnsupportedType | FindingsNotArray | FindingsItemType

  // ---------------------------------------------------------------- findings

  /** Drops every element equal to its left neighbour. */
  function DropRepeats(s: seq<string>): (r: seq<string>) {
    if |s| <= 1 then s
    else
      var r := DropRepeats(s[..|s| - 1]);
      if s[|s| - 1] == s[|s| - 2] then r else r + [s[|s| - 1]]
  }

  function NormalizeFindings(findings: seq<string>): (r: seq<string>) {
    DropRepeats(StableSort(Less, findings))
  }

  lemma AppendLarger(r: seq<string>, x: string)
    requires StrictlyAscending(Less, r) && r != [] && Less(r[|r| - 1], x)
    ensures StrictlyAscending(Less, r + [x])
  {
    hide Less;
    forall i | 0 <= i < |r| ensures Less(r[i], x) {
      if i < |r| - 1 {
        LessTransitive(r[i], r[|r| - 1], x);
      }
    }
  }

  lemma {:induction false} DropRepeatsStrict(s: seq<string>)
    requires Ascending(Less, s)
    ensures StrictlyAscending(Less, DropRepeats(s))
    ensures forall x :: x in DropRepeats(s) <==> x in s
    ensures s != [] ==> DropRepeats(s) != [] && DropRepeats(s)[|DropRepeats(s)| - 1] == s[|s| - 1]
  {
    hide Less;
    if |s| <= 1 {
    } else {
      var n := |s| - 1;
      var r := DropRepeats(s[..n]);
      DropRepeatsStrict(s[..n]);
      assert s == s[..n] + [s[n]];
      assert s[..n][n - 1] == s[n - 1];
      assert r[|r| - 1] == s[n - 1];
      if s[n] == s[n - 1] {
        assert s[n - 1] in s[..n];
      } else {
        LessTrichotomy(s[n - 1], s[n]);
        AppendLarger(r, s[n]);
      }
    }
  }

  /** Normalized findings are strictly ascending and hold exactly the given findings. */
  lemma NormalizeFindingsCanonical(findings: seq<string>)
    ensures StrictlyAscending(Less, NormalizeFindings(findings))
    ensures forall i, j :: 0 <= i < j < |NormalizeFindings(findings)| ==>
              Precedes(NormalizeFindings(findings)[i], NormalizeFindings(findings)[j])
    ensures forall x :: x in NormalizeFindings(findings) <==> x in findings
  {
    LessIsOrder();
    StableSortAscending(Less, findings);
    SameElements(StableSort(Less, findings), findings);
    DropRepeatsStrict(StableSort(Less, findings));
    var r := NormalizeFindings(findings);
    forall i, j | 0 <= i < j < |r| ensures Precedes(r[i], r[j]) {
      LessExact(r[i], r[j]);
    }
  }

  /** The list with these elements in this order, by the first differing code point, is the normal form. */
  lemma NormalizeFindingsIs(findings: seq<string>, r: seq<string>)
    requires forall x :: x in r <==> x in findings
    requires forall i, j :: 0 <= i < j < |r| ==> Precedes(r[i], r[j])
    ensures NormalizeFindings(findings) == r
  {
    hide Less, NormalizeFindings, Precedes;
    NormalizeFindingsCanonical(findings);
    forall i, j | 0 <= i < j < |r| ensures Less(r[i], r[j]) {
      LessExact(r[i], r[j]);
    }
    StrictStringsUnique(NormalizeFindings(findings), r);
  }

  lemma StrictStringsUnique(a: seq<string>, b: seq<string>)
    requires StrictlyAscending(Less, a) && StrictlyAscending(Less, b)
    requires forall x :: x in a <==> x in b
    ensures a == b
  {
    forall x: string, y | x in a && y in a ensures !(Less(x, y) && Less(y, x)) {
      LessTrichotomy(x, y);
    }
    StrictlyAscendingUnique(Less, a, b);
  }

  /** Two lists normalize alike exactly when they name the same findings. */
  lemma NormalizeFindingsSameSet(a: seq<string>, b: seq<string>)
    ensures NormalizeFindings(a) == NormalizeFindings(b) <==> (forall x :: x in a <==> x in b)
  {
    NormalizeFindingsCanonical(a);
    NormalizeFindingsCanonical(b);
    if forall x :: x in a <==> x in b {
      StrictStringsUnique(NormalizeFindings(a), NormalizeFindings(b));
    }
  }

  /** A strictly ascending list is already normal; in particular normalizing is idempotent. */
  lemma NormalizeFindingsFixed(a: seq<string>)
    requires StrictlyAscending(Less, a)
    ensures NormalizeFindings(a) == a
  {
    NormalizeFindingsCanonical(a);
    StrictStringsUnique(NormalizeFindings(a), a);
  }

  /** sort.Strings: writes the ascending permutation back into the array. */
  method SortStrings(a: array<string>)
    modifies a
    ensures a[..] == StableSort(Less, old(a[..]))
  {
    var sorted := StableSort(Less, a[..]);
    forall i | 0 <= i < a.Length {
      a[i] := sorted[i];
    }
    assert a[..] == sorted;
  }

  /**
   The in-place compaction compares with `out[i-1]` while the prefix of `out` is being
   overwritten: position i-1 still holds its sorted value, because the write cursor n
   never passes the read cursor i.
   */
  method NormalizeAcceptedFindings(findings: seq<string>) returns (r: seq<string>)
    ensures r == NormalizeFindings(findings)
  {
    if |findings| == 0 {
      return [];
    }
    var out := new string[|findings|](i requires 0 <= i < |findings| => findings[i]);
    assert out[..] == findings;
    SortStrings(out);
    r := Compact(out);
  }

  lemma DropRepeatsStep(s: seq<string>, i: nat)
    requires i < |s|
    ensures DropRepeats(s[..i + 1]) ==
            if i > 0 && s[i] == s[i - 1] then DropRepeats(s[..i]) else DropRepeats(s[..i]) + [s[i]]
  {
    assert s[..i + 1][..i] == s[..i];
  }

  /** The loop over a sorted array. */
  method Compact(out: array<string>) returns (r: seq<string>)
    modifies out
    ensures r == DropRepeats(old(out[..]))
  {
    ghost var sorted := out[..];
    var n := 0;
    var i := 0;
    while i < out.Length
      invariant 0 <= n <= i <= out.Length
      invariant i > 0 ==> out[i - 1] == sorted[i - 1]
      invariant forall k :: i <= k < out.Length ==> out[k] == sorted[k]
      invariant out[..n] == DropRepeats(sorted[..i])
    {
      var s := out[i];
      DropRepeatsStep(sorted, i);
      if !(i > 0 && s == out[i - 1]) {
        ghost var done := out[..n];
        out[n] := s;
        n := n + 1;
        assert out[..n] == done + [s];
      }
      i := i + 1;
    }
    assert sorted[..i] == sorted;
    return out[..n];
  }

  // ----------------------------------------------------------------- subtree

  /** No null, number or foreign value anywhere below. */
  predicate AllowedSubtree(v: Json) {
    match v
    case Bool(_) => true
    case Str(_) => true
    case Arr(a) => forall i :: 0 <= i < |a| ==> AllowedSubtree(a[i])
    case Obj(m) => forall k :: k in m ==> AllowedSubtree(m[k])
    case _ => false
  }

  /** w is v itself or sits somewhere below it. */
  ghost predicate Occurs(v: Json, w: Json) {
    || v == w
    || (v.Arr? && exists i :: 0 <= i < |v.elems| && Occurs(v.elems[i], w))
    || (v.Obj? && exists k :: k in v.fields && Occurs(v.fields[k], w))
  }

  predicate Forbidden(w: Json) {
    w.Null? || w.Num? || w.GoInt?
  }

  /** The recursive check accepts exactly the trees in which no null and no number occurs. */
  lemma {:induction false} AllowedMeansNoneForbidden(v: Json)
    ensures AllowedSubtree(v) <==> forall w :: Occurs(v, w) ==> !Forbidden(w)
  {
    match v {
      case Arr(a) =>
        forall i | 0 <= i < |a| ensures AllowedSubtree(a[i]) <==> forall w :: Occurs(a[i], w) ==> !Forbidden(w) {
          AllowedMeansNoneForbidden(a[i]);
        }
        if !AllowedSubtree(v) {
          var i :| 0 <= i < |a| && !AllowedSubtree(a[i]);
          var w :| Occurs(a[i], w) && Forbidden(w);
          assert Occurs(v, w);
        }
      case Obj(m) =>
        forall k | k in m ensures AllowedSubtree(m[k]) <==> forall w :: Occurs(m[k], w) ==> !Forbidden(w) {
          AllowedMeansNoneForbidden(m[k]);
        }
        if !AllowedSubtree(v) {
          var k :| k in m && !AllowedSubtree(m[k]);
          var w :| Occurs(m[k], w) && Forbidden(w);
          assert Occurs(v, w);
        }
      case _ =>
        assert Occurs(v, v);
    }
  }

  /** The reject reasons some node of the tree justifies. */
  predicate Justified(v: Json, reason: Reason) {
    match v
    case Null => reason == NullForbidden
    case Num(_) => reason == NumberForbidden
    case GoInt(_) => reason == UnsupportedType
    case Arr(a) => exists i :: 0 <= i < |a| && Justified(a[i], reason)
    case Obj(m) => exists k :: k in m && Justified(m[k], reason)
    case _ => false
  }

  /** Go visits map entries in an unspecified order; only which reason is reported may depend on it. */
  method AssertAllowedSubtree(v: Json) returns (err: Option<Reason>)
    ensures err.None? <==> AllowedSubtree(v)
    ensures err.Some? ==> Justified(v, err.value)
    decreases v
  {
    match v
    case Null => return Some(NullForbidden);
    case Num(_) => return Some(NumberForbidden);
    case GoInt(_) => return Some(UnsupportedType);
    case Bool(_) => return None;
    case Str(_) => return None;
    case Obj(m) =>
      var todo := m.Keys;
      while todo != {}
        invariant todo <= m.Keys
        invariant forall k :: k in m && k !in todo ==> AllowedSubtree(m[k])
        decreases |todo|
      {
        var k :| k in todo;
        err := AssertAllowedSubtree(m[k]);
        if err.Some? {
          return;
        }
        todo := todo - {k};
      }
      return None;
    case Arr(a) =>
      var i := 0;
      while i < |a|
        invariant 0 <= i <= |a|
        invariant forall k :: 0 <= k < i ==> AllowedSubtree(a[k])
      {
        err := AssertAllowedSubtree(a[i]);
        if err.Some? {
          return;
        }
        i := i + 1;
      }
      return None;
  }

  // ------------------------------------------------------------------ digest

  predicate StringArray(v: Json) {
    v.Arr? && forall i :: 0 <= i < |v.elems| ==> v.elems[i].Str?
  }

  function StringsOf(v: Json): (r: seq<string>)
    requires StringArray(v)
    ensures |r| == |v.elems|
    ensures forall i :: 0 <= i < |r| ==> v.elems[i] == Str(r[i])
  {
    seq(|v.elems|, i requires 0 <= i < |v.elems| => v.elems[i].s)
  }

  method FindingsAsStrings(v: Json) returns (r: Result<seq<string>, Reason>)
    ensures r.Ok? <==> StringArray(v)
    ensures r.Ok? ==> r.value == StringsOf(v)
    ensures r.Err? ==> r.error == (if v.Arr? then FindingsItemType else FindingsNotArray)
  {
    if !v.Arr? {
      return Err(FindingsNotArray);
    }
    var out := [];
    var i := 0;
    while i < |v.elems|
      invariant 0 <= i <= |v.elems| && |out| == i
      invariant forall k :: 0 <= k < i ==> v.elems[k] == Str(out[k])
    {
      if !v.elems[i].Str? {
        return Err(FindingsItemType);
      }
      out := out + [v.elems[i].s];
      i := i + 1;
    }
    assert out == StringsOf(v);
    return Ok(out);
  }

  /** The keys are exactly the closed set. */
  predicate ClosedKeys(obj: Object) {
    && (forall k :: k in obj ==> k in CLOSED_FIELDS)
    && (forall k :: k in CLOSED_FIELDS ==> k in obj)
  }

  predicate IsClosedName(k: string) {
    || k == "schema_version" || k == "crypto_policy_id" || k == "required_posture" || k == "user_constraints"
    || k == "solution_profile_ref" || k == "accepted_provider_snapshot" || k == "accepted_findings"
  }

  lemma ClosedName(k: string)
    ensures k in CLOSED_FIELDS <==> IsClosedName(k)
  {
  }

  /** The seven keys, spelled out. */
  lemma ClosedKeysAre(obj: Object)
    ensures ClosedKeys(obj) <==> forall k :: k in obj <==> IsClosedName(k)
  {
    hide CLOSED_FIELDS, IsClosedName;
    forall k ensures k in CLOSED_FIELDS <==> IsClosedName(k) {
      ClosedName(k);
    }
  }

  predicate HasUnknownKey(obj: Object) {
    exists k :: k in obj && k !in CLOSED_FIELDS
  }

  /** The documents DigestCanonical accepts. */
  predicate Digestible(root: Json) {
    && root.Obj?
    && ClosedKeys(root.fields)
    && AllowedSubtree(root)
    && StringArray(root.fields[FINDINGS_FIELD])
  }

  /** Why any other document is rejected; several bad nodes may each justify a reason. */
  predicate RejectedFor(root: Json, reason: Reason) {
    if !root.Obj? then reason == NotObject
    else if HasUnknownKey(root.fields) then reason == UnknownField
    else if !ClosedKeys(root.fields) then reason == MissingField
    else if !AllowedSubtree(root) then Justified(root, reason)
    else reason == if root.fields[FINDINGS_FIELD].Arr? then FindingsItemType else FindingsNotArray
  }

  /** The object that is hashed, stored and gated: the input with normalized findings. */
  function Canonical(obj: Object): (r: Object)
    requires Digestible(Obj(obj))
    ensures r.Keys == obj.Keys
  {
    obj[FINDINGS_FIELD := Arr(Strs(NormalizeFindings(StringsOf(obj[FINDINGS_FIELD]))))]
  }

  datatype Digested = Digested(digest: string, canonical: Object)

  function DigestOf(hash: Hash, root: Json): (r: Option<Digested>) {
    if Digestible(root) then
      var c := Canonical(root.fields);
      Some(Digested(hash(c), c))
    else None
  }

  method CheckClosedKeys(obj: Object) returns (err: Option<Reason>)
    ensures err.None? <==> ClosedKeys(obj)
    ensures err.Some? ==> err.value == if HasUnknownKey(obj) then UnknownField else MissingField
  {
    var todo := obj.Keys;
    while todo != {}
      invariant todo <= obj.Keys
      invariant forall k :: k in obj && k !in todo ==> k in CLOSED_FIELDS
      decreases |todo|
    {
      var k :| k in todo;
      if k !in CLOSED_FIELDS {
        return Some(UnknownField);
      }
      todo := todo - {k};
    }
    err := CheckFieldsPresent(obj, CLOSED_FIELDS);
  }

  method CheckFieldsPresent(obj: Object, fields: seq<string>) returns (err: Option<Reason>)
    ensures err.None? <==> forall k :: k in fields ==> k in obj
    ensures err.Some? ==> err.value == MissingField
  {
    var i := 0;
    while i < |fields|
      invariant 0 <= i <= |fields|
      invariant forall k :: 0 <= k < i ==> fields[k] in obj
    {
      if fields[i] !in obj {
        return Some(MissingField);
      }
      i := i + 1;
    }
    return None;
  }

  method RebuildClosed(obj: Object, findings: Json) returns (closed: Object)
    requires ClosedKeys(obj)
    ensures closed == obj[FINDINGS_FIELD := findings]
  {
    closed := RebuildFields(obj, findings, CLOSED_FIELDS);
    assert CLOSED_FIELDS[6] == FINDINGS_FIELD;
  }

  method RebuildFields(obj: Object, findings: Json, fields: seq<string>) returns (closed: Object)
    requires forall k :: k in fields ==> k in obj
    ensures forall k :: k in closed <==> k in fields
    ensures forall k :: k in closed ==> closed[k] == if k == FINDINGS_FIELD then findings else obj[k]
  {
    closed := map[];
    var i := 0;
    while i < |fields|
      invariant 0 <= i <= |fields|
      invariant forall k :: k in closed <==> k in fields[..i]
      invariant forall k :: k in closed ==> closed[k] == if k == FINDINGS_FIELD then findings else obj[k]
    {
      var field := fields[i];
      closed := closed[field := if field == FINDINGS_FIELD then findings else obj[field]];
      i := i + 1;
    }
    assert fields[..i] == fields;
  }

  /** The source rebuilds the object field by field; the rebuilt map is the input with one field replaced. */
  method DigestCanonical(hash: Hash, root: Json) returns (r: Result<Digested, Reason>)
    ensures r.Ok? <==> DigestOf(hash, root).Some?
    ensures r.Ok? ==> r.value == DigestOf(hash, root).value
    ensures r.Err? ==> RejectedFor(root, r.error)
  {
    if !root.Obj? {
      return Err(NotObject);
    }
    var obj := root.fields;
    var keyErr := CheckClosedKeys(obj);
    if keyErr.Some? {
      return Err(keyErr.value);
    }
    var bad := AssertAllowedSubtree(root);
    if bad.Some? {
      return Err(bad.value);
    }
    var findings := FindingsAsStrings(obj[FINDINGS_FIELD]);
    if findings.Err? {
      return Err(findings.error);
    }
    var normalized := NormalizeAcceptedFindings(findings.value);
    var closed := RebuildClosed(obj, Arr(Strs(normalized)));
    return Ok(Digested(hash(closed), closed));
  }

  lemma AllowedStrings(items: seq<string>)
    ensures AllowedSubtree(Arr(Strs(items)))
    ensures StringArray(Arr(Strs(items)))
    ensures StringsOf(Arr(Strs(items))) == items
  {
  }

  /** The canonical object is accepted again, is its own canonical object and keeps its digest. */
  lemma CanonicalFixedPoint(hash: Hash, root: Json)
    requires Digestible(root)
    ensures DigestOf(hash, Obj(Canonical(root.fields))) == DigestOf(hash, root)
  {
    var obj := root.fields;
    var items := StringsOf(obj[FINDINGS_FIELD]);
    var c := Canonical(obj);
    NormalizeFindingsCanonical(items);
    AllowedStrings(NormalizeFindings(items));
    NormalizeFindingsFixed(NormalizeFindings(items));
    assert StringsOf(c[FINDINGS_FIELD]) == NormalizeFindings(items);
    assert Digestible(Obj(c));
    assert Canonical(c) == c;
  }

  /**
   The digest sees findings as a set: two documents that differ only in order and repetition
   of findings have the same canonical object and digest, and no others do.
   */
  lemma DigestIgnoresFindingOrder(hash: Hash, a: Json, b: Json)
    requires Digestible(a) && Digestible(b)
    ensures Canonical(a.fields) == Canonical(b.fields) <==>
            && (forall k :: k in CLOSED_FIELDS && k != FINDINGS_FIELD ==> a.fields[k] == b.fields[k])
            && (forall x :: x in StringsOf(a.fields[FINDINGS_FIELD]) <==> x in StringsOf(b.fields[FINDINGS_FIELD]))
    ensures Canonical(a.fields) == Canonical(b.fields) ==> DigestOf(hash, a) == DigestOf(hash, b)
  {
    var f := FINDINGS_FIELD;
    var sa, sb := StringsOf(a.fields[f]), StringsOf(b.fields[f]);
    var ca, cb := Canonical(a.fields), Canonical(b.fields);
    NormalizeFindingsSameSet(sa, sb);
    AllowedStrings(NormalizeFindings(sa));
    AllowedStrings(NormalizeFindings(sb));
    if ca == cb {
      assert ca[f] == cb[f];
      assert NormalizeFindings(sa) == NormalizeFindings(sb);
      forall k | k in CLOSED_FIELDS && k != f ensures a.fields[k] == b.fields[k] {
        assert ca[k] == cb[k];
      }
    }
    if (forall k :: k in CLOSED_FIELDS && k != f ==> a.fields[k] == b.fields[k])
       && (forall x :: x in sa <==> x in sb) {
      assert ca.Keys == cb.Keys;
      assert forall k :: k in ca ==> ca[k] == cb[k];
      assert ca == cb;
    }
  }
}
