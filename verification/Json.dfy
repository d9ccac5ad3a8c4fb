/** Parsed JSON values and the algebra of gNMI SET on them.

    A device configuration is a JSON object. A YANG list is held as an object keyed by list entry,
    the way gNMI paths name entries; an array is a leaf-list and is therefore a leaf. `Merge` is SET
    update and assignment is SET replace (section 3.4.4 of the gNMI specification). */
module Json {
  datatype Option<+T> = None | Some(value: T)

  type Doc = map<string, Json>

  datatype Json =
    | Null
    | Bool(b: bool)
    | Num(n: real)
    | Str(s: string)
    | Arr(items: seq<Json>)
    | Obj(fields: Doc)

  type Path = seq<string>

  function Lookup(j: Json, p: Path): Option<Json>
    decreases |p|
  {
    if p == [] then Some(j)
    else if j.Obj? && p[0] in j.fields then Lookup(j.fields[p[0]], p[1..])
    else None
  }

  predicate IsObjAt(j: Json, p: Path) {
    Lookup(j, p).Some? && Lookup(j, p).value.Obj?
  }

  /** SET update: objects merge field by field, anything else is overwritten. */
  function Merge(x: Json, y: Json): Json
    decreases y
  {
    if x.Obj? && y.Obj? then
      Obj(map k | k in x.fields.Keys + y.fields.Keys ::
            if k !in y.fields then x.fields[k]
            else if k !in x.fields then y.fields[k]
            else Merge(x.fields[k], y.fields[k]))
    else y
  }

  /** `p` is not decided by `y`: walking along `p` leaves the objects of `y` at a missing key. */
  predicate Untouched(y: Json, p: Path)
    decreases |p|
  {
    p != [] && y.Obj? && (p[0] in y.fields ==> Untouched(y.fields[p[0]], p[1..]))
  }

  /** What an update does, path by path: a path the payload does not decide keeps its old value,
      and any other path reads as in the payload, where objects may have gained fields. */
  lemma {:induction false} MergeLookup(x: Json, y: Json, p: Path)
    ensures Untouched(y, p) ==> Lookup(Merge(x, y), p) == Lookup(x, p)
    ensures !Untouched(y, p) && !IsObjAt(y, p) ==> Lookup(Merge(x, y), p) == Lookup(y, p)
    ensures IsObjAt(y, p) ==> IsObjAt(Merge(x, y), p)
    decreases |p|
  {
    if p != [] && x.Obj? && y.Obj? {
      var k, rest := p[0], p[1..];
      if k in x.fields && k in y.fields {
        MergeLookup(x.fields[k], y.fields[k], rest);
      } else if Untouched(y, p) && k in y.fields {
        UntouchedIsAbsent(y, p);
      }
    } else if Untouched(y, p) {
      UntouchedIsAbsent(y, p);
    }
  }

  lemma {:induction false} UntouchedIsAbsent(y: Json, p: Path)
    requires Untouched(y, p)
    ensures Lookup(y, p).None?
    decreases |p|
  {
    if p[0] in y.fields {
      UntouchedIsAbsent(y.fields[p[0]], p[1..]);
    }
  }

  /** `d` agrees with `i` on every path that `i` names. */
  ghost predicate Honours(d: Json, i: Json) {
    forall p | Lookup(i, p).Some? ::
      if IsObjAt(i, p) then IsObjAt(d, p) else Lookup(d, p) == Lookup(i, p)
  }

  lemma MergeHonours(x: Json, y: Json)
    ensures Honours(Merge(x, y), y)
  {
    forall p | Lookup(y, p).Some?
      ensures if IsObjAt(y, p) then IsObjAt(Merge(x, y), p) else Lookup(Merge(x, y), p) == Lookup(y, p)
    {
      MergeLookup(x, y, p);
      if Untouched(y, p) { UntouchedIsAbsent(y, p); }
    }
  }

  lemma {:induction false} MergeIdempotent(x: Json, y: Json)
    ensures Merge(Merge(x, y), y) == Merge(x, y)
    decreases y
  {
    if x.Obj? && y.Obj? {
      var m := Merge(x, y);
      forall k | k in x.fields && k in y.fields
        ensures Merge(m.fields[k], y.fields[k]) == m.fields[k]
      {
        MergeIdempotent(x.fields[k], y.fields[k]);
      }
      forall k | k !in x.fields && k in y.fields
        ensures Merge(m.fields[k], y.fields[k]) == m.fields[k]
      {
        MergeSelf(y.fields[k]);
      }
      assert Merge(m, y).fields.Keys == m.fields.Keys;
      assert Merge(m, y).fields == m.fields;
    } else {
      MergeSelf(y);
    }
  }

  lemma {:induction false} MergeSelf(y: Json)
    ensures Merge(y, y) == y
    decreases y
  {
    if y.Obj? {
      forall k | k in y.fields ensures Merge(y.fields[k], y.fields[k]) == y.fields[k] {
        MergeSelf(y.fields[k]);
      }
      assert Merge(y, y).fields == y.fields;
    }
  }

  /** `p` puts a new key into an object that `b` already has: some path of `p` is absent from `b`
      although its parent is an object of `b`. */
  ghost predicate AddsPath(b: Json, p: Json) {
    exists path: Path | path != [] ::
      Lookup(p, path).Some? && Lookup(b, path).None? && IsObjAt(b, path[..|path| - 1])
  }

  /** The same, by structure. */
  predicate Adds(b: Json, p: Json)
    decreases p
  {
    b.Obj? && p.Obj? && exists k | k in p.fields :: k !in b.fields || Adds(b.fields[k], p.fields[k])
  }

  lemma {:induction false} AddsGivesPath(b: Json, p: Json) returns (path: Path)
    requires Adds(b, p)
    ensures path != [] && Lookup(p, path).Some? && Lookup(b, path).None? && IsObjAt(b, path[..|path| - 1])
    decreases p
  {
    var k :| k in p.fields && (k !in b.fields || Adds(b.fields[k], p.fields[k]));
    if k !in b.fields {
      path := [k];
      assert Lookup(p.fields[k], path[1..]).Some?;
    } else {
      var rest := AddsGivesPath(b.fields[k], p.fields[k]);
      path := [k] + rest;
      assert path[1..] == rest;
      assert path[..|path| - 1][1..] == rest[..|rest| - 1];
    }
  }

  lemma {:induction false} PathGivesAdds(b: Json, p: Json, path: Path)
    requires path != [] && Lookup(p, path).Some? && Lookup(b, path).None? && IsObjAt(b, path[..|path| - 1])
    ensures Adds(b, p)
    decreases |path|
  {
    var k, rest := path[0], path[1..];
    if k in b.fields {
      assert Lookup(b.fields[k], rest).None?;
      assert path[..|path| - 1][1..] == rest[..|rest| - 1];
      PathGivesAdds(b.fields[k], p.fields[k], rest);
    }
  }

  lemma AddsIsAddsPath(b: Json, p: Json)
    ensures Adds(b, p) <==> AddsPath(b, p)
  {
    if Adds(b, p) {
      var _ := AddsGivesPath(b, p);
    }
    if AddsPath(b, p) {
      var path: Path :| path != [] && Lookup(p, path).Some? && Lookup(b, path).None?
                        && IsObjAt(b, path[..|path| - 1]);
      PathGivesAdds(b, p, path);
    }
  }

  lemma {:induction false} AbsorbedIffNothingAdded(x: Json, y: Json)
    ensures Merge(x, y) == y <==> !Adds(y, x)
    decreases x
  {
    if x.Obj? && y.Obj? {
      forall k | k in x.fields && k in y.fields
        ensures Merge(x.fields[k], y.fields[k]) == y.fields[k] <==> !Adds(y.fields[k], x.fields[k])
      {
        AbsorbedIffNothingAdded(x.fields[k], y.fields[k]);
      }
      var m := Merge(x, y);
      assert m.fields.Keys == x.fields.Keys + y.fields.Keys;
      if !Adds(y, x) {
        assert m.fields.Keys == y.fields.Keys;
        assert m.fields == y.fields;
      } else {
        var k :| k in x.fields && (k !in y.fields || Adds(y.fields[k], x.fields[k]));
        assert k !in y.fields || m.fields[k] != y.fields[k];
      }
    }
  }

  lemma {:induction false} AddsAfterMerge(b: Json, p: Json)
    ensures Adds(b, Merge(b, p)) <==> Adds(b, p)
    decreases p
  {
    if b.Obj? && p.Obj? {
      var m := Merge(b, p);
      forall k | k in b.fields && k in p.fields
        ensures Adds(b.fields[k], m.fields[k]) <==> Adds(b.fields[k], p.fields[k])
      {
        AddsAfterMerge(b.fields[k], p.fields[k]);
      }
      forall k | k in b.fields && k !in p.fields ensures !Adds(b.fields[k], m.fields[k]) {
        MergeSelf(b.fields[k]);
        AbsorbedIffNothingAdded(b.fields[k], b.fields[k]);
      }
    }
  }

  /** Rolling back by merging the backup, instead of replacing, restores it exactly when the
      change put no new key into an object of the backup. */
  lemma RollbackByMergeIff(backup: Json, payload: Json)
    ensures Merge(Merge(backup, payload), backup) == backup <==> !AddsPath(backup, payload)
  {
    AbsorbedIffNothingAdded(Merge(backup, payload), backup);
    AddsAfterMerge(backup, payload);
    AddsIsAddsPath(backup, payload);
  }

  /** An update leaves exactly the payload when, and only when, the configuration it lands on had no
      path outside the payload. */
  lemma UpdateLeavesPayloadIff(config: Json, payload: Json)
    ensures Merge(config, payload) == payload <==> !AddsPath(payload, config)
  {
    AbsorbedIffNothingAdded(config, payload);
    AddsIsAddsPath(payload, config);
  }

  /** The value under a key, or null, which merges like a missing value. */
  function Sub(x: Json, key: string): Json {
    if x.Obj? && key in x.fields then x.fields[key] else Null
  }

  /** `x` and `y` read the same on every path that `i` does not decide. */
  ghost predicate AgreeOutside(x: Json, y: Json, i: Json) {
    forall q | Untouched(i, q) :: Lookup(x, q) == Lookup(y, q)
  }

  /** An update makes two configurations equal exactly when they agree on every path that it does not
      decide. */
  lemma {:induction false} MergesEqualIff(x: Json, y: Json, i: Json)
    ensures Merge(x, i) == Merge(y, i) <==> AgreeOutside(x, y, i)
    decreases i
  {
    if i.Obj? {
      forall k | k in i.fields
        ensures Merge(x, i).fields[k] == Merge(y, i).fields[k] <==> AgreeOutside(Sub(x, k), Sub(y, k), i.fields[k])
      {
        MergesEqualIff(Sub(x, k), Sub(y, k), i.fields[k]);
      }
      if Merge(x, i) == Merge(y, i) {
        AgreeFromParts(x, y, i);
      }
      if AgreeOutside(x, y, i) {
        PartsFromAgree(x, y, i);
        assert Merge(x, i).fields == Merge(y, i).fields;
      }
    }
  }

  lemma AgreeFromParts(x: Json, y: Json, i: Json)
    requires i.Obj? && Merge(x, i) == Merge(y, i)
    requires forall k | k in i.fields :: AgreeOutside(Sub(x, k), Sub(y, k), i.fields[k])
    ensures AgreeOutside(x, y, i)
  {
    forall q | Untouched(i, q) ensures Lookup(x, q) == Lookup(y, q) {
      var k, rest := q[0], q[1..];
      if k in i.fields {
        assert Untouched(i.fields[k], rest);
        assert Lookup(Sub(x, k), rest) == Lookup(Sub(y, k), rest);
      } else {
        assert k in Merge(x, i).fields <==> k in Merge(y, i).fields;
        assert k in Merge(x, i).fields ==> Merge(x, i).fields[k] == Merge(y, i).fields[k];
      }
    }
  }

  lemma PartsFromAgree(x: Json, y: Json, i: Json)
    requires i.Obj? && AgreeOutside(x, y, i)
    ensures forall k | k in i.fields :: AgreeOutside(Sub(x, k), Sub(y, k), i.fields[k])
    ensures Merge(x, i).fields.Keys == Merge(y, i).fields.Keys
    ensures forall k | k in Merge(x, i).fields && k !in i.fields :: Merge(x, i).fields[k] == Merge(y, i).fields[k]
  {
    forall k, rest | k in i.fields && Untouched(i.fields[k], rest)
      ensures Lookup(Sub(x, k), rest) == Lookup(Sub(y, k), rest)
    {
      var q := [k] + rest;
      assert q[1..] == rest && Untouched(i, q);
      assert Lookup(x, q) == Lookup(y, q);
    }
    forall k | k !in i.fields ensures Lookup(x, [k]) == Lookup(y, [k]) {
      assert Untouched(i, [k]);
    }
    forall k ensures k in Merge(x, i).fields <==> k in Merge(y, i).fields {
      if k !in i.fields {
        OneKey(x, k);
        OneKey(y, k);
      }
    }
    forall k | k in Merge(x, i).fields && k !in i.fields ensures Merge(x, i).fields[k] == Merge(y, i).fields[k] {
      OneKey(x, k);
      OneKey(y, k);
    }
  }

  lemma OneKey(x: Json, k: string)
    ensures Lookup(x, [k]) == if x.Obj? && k in x.fields then Some(x.fields[k]) else None
  {
    assert [k][1..] == [];
  }

  /** An update after another one erases it, leaving what it would have left alone, exactly when the
      first had not changed any path that the second does not decide. */
  lemma ErasesIff(base: Json, payload: Json, intended: Json)
    ensures Merge(Merge(base, payload), intended) == Merge(base, intended)
            <==> AgreeOutside(Merge(base, payload), base, intended)
  {
    MergesEqualIff(Merge(base, payload), base, intended);
  }
}
