// The option algebra of the dashboard charts: patches are merged into the accumulated option, and a
// theme change rebuilds the chart from a new base and that accumulated option.

module DeepMerging {
  import opened JsonValues

  /** A key that is not set reads as Null; all uses below treat the two alike. */
  function At(fields: map<string, Json>, k: string): Json {
    if k in fields then fields[k] else Null
  }

  function FieldsOf(v: Json): map<string, Json> {
    if v.Obj? then v.fields else map[]
  }

  function DeepMerge(base: Json, patch: Json): (merged: Json)
    ensures patch.Obj? ==> merged.Obj? && merged.fields.Keys == FieldsOf(base).Keys + patch.fields.Keys
    decreases patch, 0
  {
    match patch
    case Null => base
    case Obj(p) =>
      var b := FieldsOf(base);
      Obj(map k | k in b.Keys + p.Keys ::
            if k !in p then b[k] else if k == "data" then p[k] else Nested(At(b, k), p[k]))
    case _ => patch
  }

  /** What becomes of the value at a key. */
  function Nested(was: Json, patch: Json): (merged: Json)
    ensures (merged.Obj? <==> patch.Obj?) && (merged.Arr? <==> patch.Arr?)
    decreases patch, 1
  {
    if patch.Obj? then DeepMerge(was, patch) else if patch.Arr? then MergeArray(was, patch) else patch
  }

  /** What becomes of an array element: only two objects are merged. */
  function Element(was: Json, patch: Json): Json
    decreases patch, 1
  {
    if was.Obj? && patch.Obj? then DeepMerge(was, patch) else patch
  }

  function Longer(a: seq<Json>, b: seq<Json>): nat {
    if |a| < |b| then |b| else |a|
  }

  function MergeArray(was: Json, patch: Json): (merged: Json)
    requires patch.Arr?
    ensures merged.Arr? && |merged.items| == if was.Arr? then Longer(was.items, patch.items) else |patch.items|
    decreases patch, 0
  {
    if !was.Arr? then patch
    else
      var b, p := was.items, patch.items;
      Arr(seq(Longer(b, p), i requires 0 <= i < Longer(b, p) =>
            if i >= |p| then b[i] else if i < |b| then Element(b[i], p[i]) else p[i]))
  }

  lemma MergedField(base: Json, patch: Json, k: string)
    requires patch.Obj? && k in patch.fields && k != "data"
    ensures DeepMerge(base, patch).fields[k] == Nested(At(FieldsOf(base), k), patch.fields[k])
  {
  }

  lemma MergedItem(was: Json, patch: Json, i: nat)
    requires was.Arr? && patch.Arr? && i < |was.items| && i < |patch.items|
    ensures MergeArray(was, patch).items[i] == Element(was.items[i], patch.items[i])
         == if was.items[i].Obj? && patch.items[i].Obj? then Nested(was.items[i], patch.items[i]) else patch.items[i]
  {
  }

  // ---------------------------------------------------------------- patches that cover the base

  /** The patch sets everything the base sets, down to where it replaces instead of merging. */
  predicate Covers(patch: Json, base: Json)
    decreases patch
  {
    if patch.Obj? && base.Obj? then
      forall k :: k in base.fields ==>
        k in patch.fields && (k == "data" || Covers(patch.fields[k], base.fields[k]))
    else if patch.Arr? && base.Arr? then
      && |base.items| <= |patch.items|
      && forall i :: 0 <= i < |base.items| && base.items[i].Obj? && patch.items[i].Obj? ==>
           Covers(patch.items[i], base.items[i])
    else true
  }

  /** Merging leaves nothing of the base exactly when the patch covers it. */
  lemma {:induction false} CoversIff(base: Json, patch: Json)
    ensures Nested(base, patch) == patch <==> Covers(patch, base)
    decreases patch
  {
    if patch.Obj? {
      var b, p, out := FieldsOf(base), patch.fields, DeepMerge(base, patch).fields;
      forall k | k in p && k != "data" ensures out[k] == p[k] <==> Covers(p[k], At(b, k)) {
        MergedField(base, patch, k);
        CoversIff(At(b, k), p[k]);
      }
      if Covers(patch, base) {
        assert out.Keys == p.Keys;
        assert out == p;
      }
      if out == p {
        assert forall k :: k in b ==> k in out;
      }
    } else if patch.Arr? && base.Arr? {
      CoversArrayIff(base, patch);
    }
  }

  lemma {:induction false} CoversArrayIff(base: Json, patch: Json)
    requires patch.Arr? && base.Arr?
    ensures MergeArray(base, patch) == patch <==> Covers(patch, base)
    decreases patch, 0
  {
    var b, p, out := base.items, patch.items, MergeArray(base, patch).items;
    forall i | 0 <= i < |b| && i < |p| && b[i].Obj? && p[i].Obj?
      ensures out[i] == p[i] <==> Covers(p[i], b[i])
    {
      MergedItem(base, patch, i);
      CoversIff(b[i], p[i]);
    }
    if Covers(patch, base) {
      forall i | 0 <= i < |p| ensures out[i] == p[i] {
        if i < |b| { MergedItem(base, patch, i); }
      }
      assert out == p;
    }
  }

  /** A patch merged into nothing, or into a value of another kind, is the patch. */
  lemma IntoNothing(base: Json, patch: Json)
    requires patch.Obj? ==> !base.Obj?
    requires patch.Arr? ==> !base.Arr?
    ensures Nested(base, patch) == patch
  {
    CoversIff(base, patch);
  }

  lemma {:induction false} CoversItself(v: Json)
    ensures Covers(v, v)
  {
    if v.Obj? {
      forall k | k in v.fields ensures Covers(v.fields[k], v.fields[k]) { CoversItself(v.fields[k]); }
    } else if v.Arr? {
      forall i | 0 <= i < |v.items| ensures Covers(v.items[i], v.items[i]) { CoversItself(v.items[i]); }
    }
  }

  // ---------------------------------------------------------------- merging twice

  lemma {:induction false} NestedTwice(was: Json, patch: Json)
    ensures Nested(Nested(was, patch), patch) == Nested(was, patch)
    decreases patch, 1
  {
    if patch.Obj? {
      var once := DeepMerge(was, patch).fields;
      var twice := DeepMerge(Obj(once), patch).fields;
      var b, p := FieldsOf(was), patch.fields;
      forall k | k in once ensures twice[k] == once[k] {
        if k in p && k != "data" { NestedTwice(At(b, k), p[k]); }
      }
      assert twice == once;
    } else if patch.Arr? {
      ArrayTwice(was, patch);
    }
  }

  lemma {:induction false} ArrayTwice(was: Json, patch: Json)
    requires patch.Arr?
    ensures MergeArray(MergeArray(was, patch), patch) == MergeArray(was, patch)
    decreases patch, 0
  {
    CoversItself(patch);
    CoversIff(patch, patch);
    if was.Arr? {
      var once := MergeArray(was, patch).items;
      var twice := MergeArray(Arr(once), patch).items;
      forall i | 0 <= i < |once| ensures twice[i] == once[i] {
        if i < |patch.items| {
          ElementTwice(if i < |was.items| then was.items[i] else Null, patch.items[i]);
        }
      }
      assert twice == once;
    }
  }

  lemma {:induction false} ElementTwice(was: Json, patch: Json)
    ensures Element(Element(was, patch), patch) == Element(was, patch)
    decreases patch, 2
  {
    if patch.Obj? {
      NestedTwice(was, patch);
      CoversItself(patch);
      CoversIff(patch, patch);
    }
  }

  /** Merging the same patch twice is merging it once, for all trees. */
  lemma MergeIsIdempotent(base: Json, patch: Json)
    ensures DeepMerge(DeepMerge(base, patch), patch) == DeepMerge(base, patch)
  {
    NestedTwice(base, patch);
  }

  // ---------------------------------------------------------------- merging three trees

  /** Wherever the first and the third tree are merged into each other, the second either has the same
      kind of value between them or the third covers the first. */
  predicate Agree(a: Json, b: Json, c: Json)
    decreases c
  {
    if a.Obj? && c.Obj? then
      if b.Obj?
      then forall k :: k in c.fields && k != "data" && k in a.fields && k in b.fields ==>
             Agree(a.fields[k], b.fields[k], c.fields[k])
      else Covers(c, a)
    else if a.Arr? && c.Arr? then
      if b.Arr?
      then forall i :: 0 <= i < |c.items| && i < |a.items| && i < |b.items| && a.items[i].Obj? && c.items[i].Obj? ==>
             Agree(a.items[i], b.items[i], c.items[i])
      else Covers(c, a)
    else true
  }

  lemma {:induction false} NestedAssociates(a: Json, b: Json, c: Json)
    ensures Nested(Nested(a, b), c) == Nested(a, Nested(b, c)) <==> Agree(a, b, c)
    decreases c, 2
  {
    if c.Obj? && b.Obj? && a.Obj? {
      ObjectsAssociate(a, b, c);
    } else if c.Arr? && b.Arr? && a.Arr? {
      ArraysAssociate(a, b, c);
    } else if (c.Obj? && b.Obj?) || (c.Arr? && b.Arr?) {
      IntoNothing(a, b);
      IntoNothing(a, Nested(b, c));
    } else {
      IntoNothing(Nested(a, b), c);
      IntoNothing(b, c);
      CoversIff(a, c);
    }
  }

  lemma {:induction false} FieldAssociates(a: Json, b: Json, c: Json, k: string)
    requires a.Obj? && b.Obj? && c.Obj? && (k in a.fields || k in b.fields || k in c.fields)
    ensures var left, right := DeepMerge(DeepMerge(a, b), c).fields, DeepMerge(a, DeepMerge(b, c)).fields;
      && k in left && k in right
      && (left[k] == right[k] <==>
          (k in c.fields && k != "data" && k in a.fields && k in b.fields ==>
           Agree(a.fields[k], b.fields[k], c.fields[k])))
    decreases c, 0
  {
    if k in c.fields && k != "data" {
      if k in b.fields {
        NestedAssociates(At(a.fields, k), b.fields[k], c.fields[k]);
      } else {
        IntoNothing(Null, c.fields[k]);
      }
    }
  }

  lemma {:induction false} ObjectsAssociate(a: Json, b: Json, c: Json)
    requires a.Obj? && b.Obj? && c.Obj?
    ensures DeepMerge(DeepMerge(a, b), c) == DeepMerge(a, DeepMerge(b, c)) <==> Agree(a, b, c)
    decreases c, 1
  {
    var left, right := DeepMerge(DeepMerge(a, b), c).fields, DeepMerge(a, DeepMerge(b, c)).fields;
    assert left.Keys == right.Keys;
    forall k | k in left
      ensures left[k] == right[k] <==>
        (k in c.fields && k != "data" && k in a.fields && k in b.fields ==>
         Agree(a.fields[k], b.fields[k], c.fields[k]))
    {
      FieldAssociates(a, b, c, k);
    }
    if Agree(a, b, c) { assert left == right; }
  }

  lemma {:induction false} ElementAssociates(a: Json, b: Json, c: Json)
    ensures Element(Element(a, b), c) == Element(a, Element(b, c)) <==> (a.Obj? && c.Obj? ==> Agree(a, b, c))
    decreases c, 2
  {
    if a.Obj? && c.Obj? {
      if b.Obj? { ObjectsAssociate(a, b, c); } else { CoversIff(a, c); }
    }
  }

  lemma {:induction false} ItemAssociates(a: Json, b: Json, c: Json, i: nat)
    requires a.Arr? && b.Arr? && c.Arr?
    requires i < |a.items| || i < |b.items| || i < |c.items|
    ensures var left, right := MergeArray(MergeArray(a, b), c).items, MergeArray(a, MergeArray(b, c)).items;
      && i < |left| && i < |right|
      && (left[i] == right[i] <==>
          (i < |c.items| && i < |a.items| && i < |b.items| && a.items[i].Obj? && c.items[i].Obj? ==>
           Agree(a.items[i], b.items[i], c.items[i])))
    decreases c, 0
  {
    if i < |c.items| && i < |b.items| && i < |a.items| {
      ElementAssociates(a.items[i], b.items[i], c.items[i]);
    }
  }

  lemma {:induction false} ArraysAssociate(a: Json, b: Json, c: Json)
    requires a.Arr? && b.Arr? && c.Arr?
    ensures MergeArray(MergeArray(a, b), c) == MergeArray(a, MergeArray(b, c)) <==> Agree(a, b, c)
    decreases c, 1
  {
    var left, right := MergeArray(MergeArray(a, b), c).items, MergeArray(a, MergeArray(b, c)).items;
    assert |left| == |right|;
    forall i | 0 <= i < |left|
      ensures left[i] == right[i] <==>
        (i < |c.items| && i < |a.items| && i < |b.items| && a.items[i].Obj? && c.items[i].Obj? ==>
         Agree(a.items[i], b.items[i], c.items[i]))
    {
      ItemAssociates(a, b, c, i);
    }
    if Agree(a, b, c) { assert left == right; }
  }

  /** Merging is associative exactly on the trees that agree; a Null in the middle is no patch at all. */
  lemma MergeAssociatesIff(a: Json, b: Json, c: Json)
    ensures DeepMerge(DeepMerge(a, b), c) == DeepMerge(a, DeepMerge(b, c)) <==>
      (a.Obj? && c.Obj? && !b.Null? ==> Agree(a, b, c))
  {
    if c.Obj? && b.Null? {
      IntoNothing(b, c);
    } else if c.Obj? && b.Obj? {
      if a.Obj? {
        ObjectsAssociate(a, b, c);
      } else {
        IntoNothing(a, b);
        IntoNothing(a, DeepMerge(b, c));
      }
    } else if c.Obj? {
      IntoNothing(b, c);
      CoversIff(a, c);
    }
  }

  /** It fails when a patch takes an object away and a later one brings it back: the rebuilt option then
      still has what the base put into it. */
  lemma MergeDoesNotAlwaysAssociate(v: Json)
    ensures
      var a := Obj(map["legend" := Obj(map["show" := v])]);
      var b, c := Obj(map["legend" := Null]), Obj(map["legend" := Obj(map[])]);
      DeepMerge(DeepMerge(a, b), c) != DeepMerge(a, DeepMerge(b, c))
  {
    var inner, empty := Obj(map["show" := v]), Obj(map[]);
    NothingCoversOnlyNothing(inner, empty, "show");
    var a, b, c := Obj(map["legend" := inner]), Obj(map["legend" := Null]), Obj(map["legend" := empty]);
    assert "legend" in c.fields && !Agree(a.fields["legend"], b.fields["legend"], c.fields["legend"]);
    MergeAssociatesIff(a, b, c);
  }

  lemma NothingCoversOnlyNothing(base: Json, patch: Json, k: string)
    requires base.Obj? && patch.Obj? && k in base.fields && k !in patch.fields
    ensures !Covers(patch, base)
  {
  }

  // ---------------------------------------------------------------- trees of the same kind

  /** At every common path both have an object, both an array, or both something else. */
  predicate SameKind(a: Json, b: Json)
    decreases b
  {
    if b.Obj? then
      a.Obj? && forall k :: k in b.fields && k in a.fields && k != "data" ==> SameKind(a.fields[k], b.fields[k])
    else if b.Arr? then
      a.Arr? && forall i :: 0 <= i < |b.items| && i < |a.items| ==> SameKind(a.items[i], b.items[i])
    else !a.Obj? && !a.Arr?
  }

  lemma {:induction false} SameKindAgrees(a: Json, b: Json, c: Json)
    requires SameKind(a, b) && SameKind(b, c)
    ensures Agree(a, b, c)
    decreases c
  {
    if c.Obj? {
      forall k | k in c.fields && k != "data" && k in a.fields && k in b.fields
        ensures Agree(a.fields[k], b.fields[k], c.fields[k])
      {
        SameKindAgrees(a.fields[k], b.fields[k], c.fields[k]);
      }
    } else if c.Arr? {
      forall i | 0 <= i < |c.items| && i < |a.items| && i < |b.items| && a.items[i].Obj? && c.items[i].Obj?
        ensures Agree(a.items[i], b.items[i], c.items[i])
      {
        SameKindAgrees(a.items[i], b.items[i], c.items[i]);
      }
    }
  }

  /** A tree of the same kind as two trees that fit each other is of the same kind as their merge. */
  lemma {:induction false} SameKindAsMerge(a: Json, b: Json, c: Json)
    requires SameKind(a, b) && SameKind(a, c) && SameKind(b, c)
    ensures SameKind(a, Nested(b, c))
    decreases c
  {
    if c.Obj? {
      var m := DeepMerge(b, c);
      forall k | k in m.fields && k in a.fields && k != "data" ensures SameKind(a.fields[k], m.fields[k]) {
        if k in c.fields {
          if k in b.fields {
            SameKindAsMerge(a.fields[k], b.fields[k], c.fields[k]);
          } else {
            IntoNothing(Null, c.fields[k]);
          }
        }
      }
    } else if c.Arr? {
      var m := MergeArray(b, c);
      forall i | 0 <= i < |m.items| && i < |a.items| ensures SameKind(a.items[i], m.items[i]) {
        if i < |c.items| && i < |b.items| {
          MergedItem(b, c, i);
          SameKindAsMerge(a.items[i], b.items[i], c.items[i]);
        }
      }
    }
  }

  // ---------------------------------------------------------------- replaying patches

  function Replay(base: Json, patches: seq<Json>): Json {
    if patches == [] then base
    else DeepMerge(Replay(base, patches[..|patches| - 1]), patches[|patches| - 1])
  }

  const EMPTY := Obj(map[])

  /** The accumulated option of the patches so far. */
  function Accumulated(patches: seq<Json>): Json {
    Replay(EMPTY, patches)
  }

  ghost predicate AgreeAll(base: Json, patches: seq<Json>) {
    forall i :: 0 <= i < |patches| ==> Agree(base, Accumulated(patches[..i]), patches[i])
  }

  /** Merging the accumulated option into a new base is replaying every patch on it. For one list of patches
      agreement is enough but not needed, as a later patch may overwrite a difference. */
  lemma {:induction false} RebuildIsReplay(base: Json, patches: seq<Json>)
    requires base.Obj? && AgreeAll(base, patches)
    ensures DeepMerge(base, Accumulated(patches)) == Replay(base, patches)
  {
    if patches == [] {
      assert DeepMerge(base, EMPTY).fields == base.fields;
    } else {
      var earlier, last := patches[..|patches| - 1], patches[|patches| - 1];
      assert forall i :: 0 <= i < |earlier| ==> patches[..i] == earlier[..i];
      assert forall i :: 0 <= i < |earlier| ==> Agree(base, Accumulated(patches[..i]), patches[i]);
      RebuildIsReplay(base, earlier);
      MergeAssociatesIff(base, Accumulated(earlier), last);
    }
  }

  /** One more patch, on the accumulated option and on the replay. */
  lemma OneMorePatch(base: Json, patches: seq<Json>, patch: Json)
    ensures Replay(base, patches + [patch]) == DeepMerge(Replay(base, patches), patch)
  {
    assert (patches + [patch])[..|patches|] == patches;
  }

  lemma {:induction false} AccumulatedIsSomething(patches: seq<Json>)
    ensures !Accumulated(patches).Null?
  {
    if patches != [] { AccumulatedIsSomething(patches[..|patches| - 1]); }
  }

  /** If rebuilding has been replaying so far, it stays so exactly if the next patch agrees. */
  lemma RebuildStep(base: Json, patches: seq<Json>, patch: Json)
    requires base.Obj? && DeepMerge(base, Accumulated(patches)) == Replay(base, patches)
    ensures
      DeepMerge(base, Accumulated(patches + [patch])) == Replay(base, patches + [patch]) <==>
      Agree(base, Accumulated(patches), patch)
  {
    OneMorePatch(EMPTY, patches, patch);
    OneMorePatch(base, patches, patch);
    AccumulatedIsSomething(patches);
    MergeAssociatesIff(base, Accumulated(patches), patch);
  }

  ghost predicate RebuildsAlways(base: Json, patches: seq<Json>) {
    forall n :: 0 <= n <= |patches| ==> DeepMerge(base, Accumulated(patches[..n])) == Replay(base, patches[..n])
  }

  /** The condition is exact for a chart that is rebuilt after any number of its patches. */
  lemma {:induction false} RebuildIsReplayIff(base: Json, patches: seq<Json>)
    requires base.Obj?
    ensures RebuildsAlways(base, patches) <==> AgreeAll(base, patches)
  {
    if RebuildsAlways(base, patches) {
      forall i | 0 <= i < |patches| ensures Agree(base, Accumulated(patches[..i]), patches[i]) {
        assert patches[..i + 1] == patches[..i] + [patches[i]];
        RebuildStep(base, patches[..i], patches[i]);
      }
    }
    if AgreeAll(base, patches) {
      forall n | 0 <= n <= |patches|
        ensures DeepMerge(base, Accumulated(patches[..n])) == Replay(base, patches[..n])
      {
        assert forall i :: 0 <= i < n ==> patches[..n][..i] == patches[..i];
        RebuildIsReplay(base, patches[..n]);
      }
    }
  }

  ghost predicate PairwiseSameKind(base: Json, patches: seq<Json>) {
    && (forall i :: 0 <= i < |patches| ==> SameKind(base, patches[i]))
    && (forall i, j :: 0 <= i < j < |patches| ==> SameKind(patches[i], patches[j]))
  }

  lemma {:induction false} SameKindIsSymmetric(a: Json, b: Json)
    requires SameKind(a, b)
    ensures SameKind(b, a)
    decreases b
  {
    if b.Obj? {
      forall k | k in a.fields && k in b.fields && k != "data" ensures SameKind(b.fields[k], a.fields[k]) {
        SameKindIsSymmetric(a.fields[k], b.fields[k]);
      }
    } else if b.Arr? {
      forall i | 0 <= i < |a.items| && i < |b.items| ensures SameKind(b.items[i], a.items[i]) {
        SameKindIsSymmetric(a.items[i], b.items[i]);
      }
    }
  }

  lemma {:induction false} SameKindAsAccumulated(v: Json, patches: seq<Json>, n: nat)
    requires n <= |patches| && v.Obj? && forall i :: 0 <= i < |patches| ==> patches[i].Obj?
    requires forall i :: 0 <= i < n ==> SameKind(v, patches[i])
    requires forall i, j :: 0 <= i < j < |patches| ==> SameKind(patches[i], patches[j])
    ensures SameKind(v, Accumulated(patches[..n]))
    decreases n
  {
    if n > 0 {
      var last, earlier := patches[n - 1], Accumulated(patches[..n - 1]);
      assert patches[..n][..n - 1] == patches[..n - 1];
      forall i | 0 <= i < n - 1 ensures SameKind(last, patches[i]) { SameKindIsSymmetric(patches[i], last); }
      SameKindAsAccumulated(v, patches, n - 1);
      SameKindAsAccumulated(last, patches, n - 1);
      SameKindIsSymmetric(last, earlier);
      SameKindAsMerge(v, earlier, last);
    }
  }

  /** In particular for patches that never change the kind of a value. */
  lemma RebuildIsReplayForSameKind(base: Json, patches: seq<Json>)
    requires base.Obj? && forall i :: 0 <= i < |patches| ==> patches[i].Obj?
    requires PairwiseSameKind(base, patches)
    ensures DeepMerge(base, Accumulated(patches)) == Replay(base, patches)
  {
    forall i | 0 <= i < |patches| ensures Agree(base, Accumulated(patches[..i]), patches[i]) {
      forall j | 0 <= j < i ensures SameKind(patches[i], patches[j]) { SameKindIsSymmetric(patches[j], patches[i]); }
      SameKindAsAccumulated(base, patches, i);
      SameKindAsAccumulated(patches[i], patches, i);
      SameKindIsSymmetric(patches[i], Accumulated(patches[..i]));
      SameKindAgrees(base, Accumulated(patches[..i]), patches[i]);
    }
    RebuildIsReplay(base, patches);
  }

  lemma DrawingIsReplay(base: Json, patches: seq<Json>, patch: Json)
    requires base.Obj? && AgreeAll(base, patches + [patch])
    ensures DeepMerge(base, Accumulated(patches + [patch])) == DeepMerge(Replay(base, patches), patch)
  {
    RebuildIsReplay(base, patches + [patch]);
    OneMorePatch(base, patches, patch);
  }

  // ---------------------------------------------------------------- the chart object

  /** One chart: its theme, the option its callers have accumulated and the option last drawn (before
      the house rules are applied). */
  class Chart {
    var dark: bool
    var userOption: Json
    var drawn: Json
    ghost var patches: seq<Json>

    ghost predicate Valid()
      reads this
    {
      userOption == Accumulated(patches)
    }

    constructor (dark: bool, baseOption: Json)
      requires baseOption.Obj?
      ensures Valid() && patches == [] && this.dark == dark && drawn == baseOption
    {
      this.dark, userOption, drawn, patches := dark, EMPTY, baseOption, [];
    }

    /** Accumulates the patch and draws base and accumulated option together; anything but an object or an
        array is turned down. */
    method Update(baseOption: Json, patch: Json) returns (ok: bool)
      requires Valid() && baseOption.Obj?
      modifies this`userOption, this`drawn, this`patches
      ensures Valid() && ok == (patch.Obj? || patch.Arr?)
      ensures !ok ==> patches == old(patches) && drawn == old(drawn)
      ensures ok ==> patches == old(patches) + [patch] && drawn == DeepMerge(baseOption, Accumulated(patches))
      ensures ok && AgreeAll(baseOption, patches) ==> drawn == DeepMerge(Replay(baseOption, old(patches)), patch)
    {
      if !patch.Obj? && !patch.Arr? { return false; }
      OneMorePatch(EMPTY, patches, patch);
      if AgreeAll(baseOption, patches + [patch]) { DrawingIsReplay(baseOption, patches, patch); }
      userOption := DeepMerge(userOption, patch);
      drawn := DeepMerge(baseOption, userOption);
      patches := patches + [patch];
      ok := true;
    }

    /** A theme change draws what the same patches would have drawn on the new base. */
    method Rebuild(newDark: bool, baseOption: Json)
      requires Valid() && baseOption.Obj?
      modifies this`dark, this`drawn
      ensures Valid() && dark == newDark && drawn == DeepMerge(baseOption, Accumulated(patches))
      ensures AgreeAll(baseOption, patches) ==> drawn == Replay(baseOption, patches)
    {
      dark := newDark;
      drawn := DeepMerge(baseOption, userOption);
      if AgreeAll(baseOption, patches) { RebuildIsReplay(baseOption, patches); }
    }
  }
}
