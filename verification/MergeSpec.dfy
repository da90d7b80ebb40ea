/** Folding a requested specification over the stored one. */
module MergeSpec {
  import opened Wrappers

  /** A decoded document: an object, or anything that is replaced as a whole (scalar, list or null). */
  datatype Value = Leaf(text: string) | Obj(fields: Spec)

  type Spec = map<string, Value>

  /** What a value becomes under an overlay: objects fold key by key, everything else is overwritten. */
  function Overlaid(base: Value, overlay: Value): (r: Value)
    decreases overlay
  {
    if base.Obj? && overlay.Obj? then
      Obj(map key | key in base.fields.Keys + overlay.fields.Keys ::
            if key !in overlay.fields then base.fields[key]
            else if key in base.fields then Overlaid(base.fields[key], overlay.fields[key])
            else overlay.fields[key])
    else overlay
  }

  const EMPTY: Value := Obj(map[])

  function Entry(base: Spec, overlay: Spec, key: string): Value
    requires key in base || key in overlay
  {
    if key !in overlay then base[key]
    else if key in base then Overlaid(base[key], overlay[key])
    else overlay[key]
  }

  /** A merge under way: the keys in `remaining` still have to be folded in. */
  predicate Partly(fields: Spec, base: Spec, overlay: Spec, remaining: set<string>) {
    && remaining <= overlay.Keys && fields.Keys == base.Keys + (overlay.Keys - remaining)
    && forall key :: key in fields ==> fields[key] == if key in remaining then base[key] else Entry(base, overlay, key)
  }

  lemma PartlyNext(fields: Spec, base: Spec, overlay: Spec, remaining: set<string>, key: string)
    requires Partly(fields, base, overlay, remaining) && key in remaining
    ensures Partly(fields[key := Entry(base, overlay, key)], base, overlay, remaining - {key})
    ensures key in fields <==> key in base
    ensures key in base ==> fields[key] == base[key]
    ensures Entry(base, overlay, key) ==
      if key in base && base[key].Obj? && overlay[key].Obj? then Overlaid(base[key], overlay[key]) else overlay[key]
  {
  }

  lemma PartlyStart(base: Spec, overlay: Spec)
    ensures Partly(base, base, overlay, overlay.Keys)
  {
    hide Overlaid;
  }

  lemma PartlyDone(fields: Spec, base: Spec, overlay: Spec)
    requires Partly(fields, base, overlay, {})
    ensures Obj(fields) == Overlaid(Obj(base), Obj(overlay))
  {
    assert fields == Overlaid(Obj(base), Obj(overlay)).fields;
  }

  /** deepMergeMap on two objects, taking the overlay's keys in whatever order they come. */
  method DeepMergeMap(base: Value, overlay: Value) returns (result: Value)
    requires base.Obj? && overlay.Obj?
    ensures result == Overlaid(base, overlay)
    decreases overlay
  {
    hide Partly, Entry, Overlaid;
    var fields, remaining := base.fields, overlay.fields.Keys;
    PartlyStart(base.fields, overlay.fields);
    while remaining != {}
      invariant Partly(fields, base.fields, overlay.fields, remaining) && remaining <= overlay.fields.Keys
      decreases |remaining|
    {
      var key :| key in remaining;
      PartlyNext(fields, base.fields, overlay.fields, remaining, key);
      var value := overlay.fields[key];
      if key in fields && fields[key].Obj? && value.Obj? {
        value := DeepMergeMap(fields[key], value);
      }
      fields := fields[key := value];
      remaining := remaining - {key};
    }
    PartlyDone(fields, base.fields, overlay.fields);
    result := Obj(fields);
  }

  function Field(v: Value, key: string): Value {
    if v.Obj? && key in v.fields then v.fields[key] else Leaf("")
  }

  /** mergeTeamSpec: the calls are merged once more, by name. */
  method MergeTeamSpec(existing: Value, spec: Value) returns (result: Value)
    requires existing.Obj? && spec.Obj?
    ensures result == Overlaid(existing, spec)
  {
    result := DeepMergeMap(existing, spec);
    var stored, wanted := Field(existing, "calls"), Field(spec, "calls");
    if !stored.Obj? || !wanted.Obj? || stored.fields == map[] || wanted.fields == map[] { return; }
    var merged := MergeCalls(stored, wanted);
    result := Obj(result.fields["calls" := merged]);
    assert result.fields == Overlaid(existing, spec).fields;
  }

  method MergeCalls(stored: Value, wanted: Value) returns (merged: Value)
    requires stored.Obj? && wanted.Obj?
    ensures merged == Overlaid(stored, wanted)
  {
    hide Partly, Entry, Overlaid;
    var calls, remaining := stored.fields, wanted.fields.Keys;
    PartlyStart(stored.fields, wanted.fields);
    while remaining != {}
      invariant Partly(calls, stored.fields, wanted.fields, remaining) && remaining <= wanted.fields.Keys
      decreases |remaining|
    {
      var name :| name in remaining;
      PartlyNext(calls, stored.fields, wanted.fields, remaining, name);
      var call := wanted.fields[name];
      if name in calls && calls[name].Obj? && call.Obj? { call := DeepMergeMap(calls[name], call); }
      calls := calls[name := call];
      remaining := remaining - {name};
    }
    PartlyDone(calls, stored.fields, wanted.fields);
    merged := Obj(calls);
  }

  // What a merge means, path by path.

  function Get(v: Value, path: seq<string>): Option<Value>
    decreases path
  {
    if path == [] then Some(v)
    else if v.Obj? && path[0] in v.fields then Get(v.fields[path[0]], path[1..])
    else None
  }

  /** A leaf stands on the way to the path. */
  predicate Cut(v: Value, path: seq<string>)
    decreases path
  {
    path != [] && (v.Leaf? || (path[0] in v.fields && Cut(v.fields[path[0]], path[1..])))
  }

  /**
   * At every path the merge holds the overlay's value, folded over the base's where both have one;
   * where the overlay says nothing it holds the base's, unless a leaf of the overlay stands on the way.
   */
  lemma {:induction false} MergeAtPath(base: Value, overlay: Value, path: seq<string>)
    ensures Get(Overlaid(base, overlay), path) ==
      match Get(overlay, path)
      case Some(v) => Some(if Get(base, path).Some? then Overlaid(Get(base, path).value, v) else v)
      case None => if Cut(overlay, path) then None else Get(base, path)
    decreases path
  {
    if path != [] && base.Obj? && overlay.Obj? && path[0] in base.fields && path[0] in overlay.fields {
      MergeAtPath(base.fields[path[0]], overlay.fields[path[0]], path[1..]);
    }
  }

  /** A leaf of the merge is the overlay's leaf, or the base's where the overlay neither has a value nor cuts it off. */
  lemma {:induction false} LeafOfMerge(base: Value, overlay: Value, path: seq<string>, text: string)
    ensures Get(Overlaid(base, overlay), path) == Some(Leaf(text)) <==>
      || Get(overlay, path) == Some(Leaf(text))
      || (Get(base, path) == Some(Leaf(text)) && Get(overlay, path) == None && !Cut(overlay, path))
  {
    MergeAtPath(base, overlay, path);
  }

  // Laws.

  lemma EmptyIsNeutral(v: Value)
    requires v.Obj?
    ensures Overlaid(EMPTY, v) == v && Overlaid(v, EMPTY) == v
  {
    assert Overlaid(EMPTY, v).fields == v.fields;
    assert Overlaid(v, EMPTY).fields == v.fields;
  }

  /** The overlay has something to say wherever the base has. */
  predicate Absorbs(overlay: Value, base: Value)
    decreases overlay
  {
    base.Obj? && overlay.Obj? ==>
      forall key :: key in base.fields ==> key in overlay.fields && Absorbs(overlay.fields[key], base.fields[key])
  }

  lemma {:induction false} AbsorbsIff(base: Value, overlay: Value)
    ensures Overlaid(base, overlay) == overlay <==> Absorbs(overlay, base)
    decreases overlay
  {
    if base.Obj? && overlay.Obj? {
      var merged := Overlaid(base, overlay);
      forall key | key in base.fields && key in overlay.fields
        ensures merged.fields[key] == overlay.fields[key] <==> Absorbs(overlay.fields[key], base.fields[key])
      {
        AbsorbsIff(base.fields[key], overlay.fields[key]);
      }
      if Absorbs(overlay, base) {
        assert merged.fields == overlay.fields;
      } else {
        var key :| key in base.fields && !(key in overlay.fields && Absorbs(overlay.fields[key], base.fields[key]));
        assert key in merged.fields;
        assert key !in overlay.fields || merged.fields[key] != overlay.fields[key];
      }
    }
  }

  /** Applying the same overlay again changes nothing. */
  lemma {:induction false} MergeIsIdempotent(base: Value, overlay: Value)
    ensures Overlaid(Overlaid(base, overlay), overlay) == Overlaid(base, overlay)
    decreases overlay
  {
    OverlaidOnItself(overlay);
    if base.Obj? && overlay.Obj? {
      var once := Overlaid(base, overlay);
      forall key | key in overlay.fields
        ensures Overlaid(once.fields[key], overlay.fields[key]) == once.fields[key]
      {
        if key in base.fields {
          MergeIsIdempotent(base.fields[key], overlay.fields[key]);
        } else {
          OverlaidOnItself(overlay.fields[key]);
        }
      }
      assert Overlaid(once, overlay).fields == once.fields;
    }
  }

  lemma {:induction false} OverlaidOnItself(v: Value)
    ensures Overlaid(v, v) == v
    decreases v
  {
    if v.Obj? {
      forall key | key in v.fields ensures Overlaid(v.fields[key], v.fields[key]) == v.fields[key] {
        OverlaidOnItself(v.fields[key]);
      }
      assert Overlaid(v, v).fields == v.fields;
    }
  }

  /** Somewhere a leaf of the middle document separates two objects of which the newer does not cover the older. */
  predicate Separated(a: Value, b: Value, c: Value)
    decreases c
  {
    && a.Obj? && c.Obj?
    && if b.Leaf? then !Absorbs(c, a)
       else exists key :: key in c.fields && key in a.fields && key in b.fields
                          && Separated(a.fields[key], b.fields[key], c.fields[key])
  }

  /** Merging is associative exactly where no leaf separates two objects in this way. */
  lemma {:induction false} AssociativeIff(a: Value, b: Value, c: Value)
    ensures Overlaid(Overlaid(a, b), c) == Overlaid(a, Overlaid(b, c)) <==> !Separated(a, b, c)
    decreases c
  {
    if a.Obj? && c.Obj? {
      if b.Leaf? {
        AbsorbsIff(a, c);
      } else {
        AssociativeObjects(a, b, c);
      }
    }
  }

  lemma {:induction false} AssociativeObjects(a: Value, b: Value, c: Value)
    requires a.Obj? && b.Obj? && c.Obj?
    ensures Overlaid(Overlaid(a, b), c) == Overlaid(a, Overlaid(b, c)) <==> !Separated(a, b, c)
    decreases c, 0
  {
    var left, right := Overlaid(Overlaid(a, b), c), Overlaid(a, Overlaid(b, c));
    assert left.fields.Keys == right.fields.Keys;
    forall key | key in left.fields
      ensures left.fields[key] == right.fields[key] <==>
        !(key in a.fields && key in b.fields && key in c.fields && Separated(a.fields[key], b.fields[key], c.fields[key]))
    {
      if key in a.fields && key in b.fields && key in c.fields {
        AssociativeIff(a.fields[key], b.fields[key], c.fields[key]);
      }
    }
    if !Separated(a, b, c) {
      assert left.fields == right.fields;
    } else {
      var key :| key in c.fields && key in a.fields && key in b.fields
        && Separated(a.fields[key], b.fields[key], c.fields[key]);
      assert key in left.fields && left.fields[key] != right.fields[key];
    }
  }
}
