/** Deep merge of a partial override tree onto a base theme
    (src/theme/mergeTheme.ts).

    A theme is a JSON object tree. The merge walks the override object key by key:
    where both the override value and the base value are plain objects it recurses,
    and in every other case the override value replaces the base value wholesale.
    Keys the override does not mention keep the base's value. */
module ThemeMerge {

  import opened Wrappers

  /** A JSON value. `Obj` is a plain object (not null, not an array): the only
      kind of value the merge descends into. */
  datatype Value =
    | Null
    | Bool(b: bool)
    | Num(n: real)
    | Str(s: string)
    | Arr(items: seq<Value>)
    | Obj(fields: map<string, Value>)

  /** A theme and its overrides are both root objects; the overrides are a deep partial,
      which a map with missing keys represents at every depth. */
  type Theme = map<string, Value>
  type ThemeOverrides = map<string, Value>

  /** A sequence of object keys leading from a root into the tree. */
  type Path = seq<string>

  /** One step of the recursive walk: `target` is the base value at some key, `source`
      the override value at the same key. */
  function MergeValue(target: Value, source: Value): (r: Value)
    ensures r.Obj? <==> source.Obj?
    ensures !(target.Obj? && source.Obj?) ==> r == source
    ensures target.Obj? && source.Obj? ==> r.fields.Keys == target.fields.Keys + source.fields.Keys
    decreases source
  {
    if target.Obj? && source.Obj? then
      Obj(map k | k in target.fields.Keys + source.fields.Keys ::
            if k !in source.fields then target.fields[k]
            else if k in target.fields then MergeValue(target.fields[k], source.fields[k])
            else source.fields[k])
    else
      source
  }

  /** mergeTheme: the base and override roots are both objects. */
  function MergeTheme(base: Theme, overrides: ThemeOverrides): (r: Theme)
    ensures r.Keys == base.Keys + overrides.Keys
    ensures forall k :: k in base && k !in overrides ==> r[k] == base[k]
    ensures forall k :: k in overrides && k !in base ==> r[k] == overrides[k]
    ensures forall k :: k in overrides && k in base && !(base[k].Obj? && overrides[k].Obj?) ==>
              r[k] == overrides[k]
    ensures forall k :: k in overrides && k in base && base[k].Obj? && overrides[k].Obj? ==>
              r[k] == MergeValue(base[k], overrides[k]) && r[k].Obj?
  {
    MergeValue(Obj(base), Obj(overrides)).fields
  }

  /** The dark theme is the light theme with the dark overrides merged on top. */
  function GetDarkTheme(lightTheme: Theme, darkOverrides: ThemeOverrides): (r: Theme)
    ensures r == MergeTheme(lightTheme, darkOverrides)
  {
    MergeTheme(lightTheme, darkOverrides)
  }

  /** The value found by following `p` from `v`, if every step is an object holding the key. */
  function Lookup(v: Value, p: Path): Option<Value>
    decreases |p|
  {
    if |p| == 0 then Some(v)
    else if v.Obj? && p[0] in v.fields then Lookup(v.fields[p[0]], p[1..])
    else None
  }

  /** The override never reaches `p`: along the path it stays an object and, at some
      step, simply lacks the next key. */
  predicate Untouched(source: Value, p: Path)
    decreases |p|
  {
    && |p| > 0
    && source.Obj?
    && (p[0] !in source.fields || Untouched(source.fields[p[0]], p[1..]))
  }

  /** Every leaf of the override (a non-object value at the end of a path) is found
      unchanged at the same path in the result. */
  lemma {:induction false} MergeValueLeafWins(target: Value, source: Value, p: Path, leaf: Value)
    requires Lookup(source, p) == Some(leaf)
    requires !leaf.Obj?
    ensures Lookup(MergeValue(target, source), p) == Some(leaf)
    decreases |p|
  {
    if |p| == 0 {
    } else if target.Obj? && source.Obj? {
      var k := p[0];
      var r := MergeValue(target, source);
      if k in target.fields {
        MergeValueLeafWins(target.fields[k], source.fields[k], p[1..], leaf);
        assert r.fields[k] == MergeValue(target.fields[k], source.fields[k]);
      } else {
        assert r.fields[k] == source.fields[k];
      }
    }
  }

  /** A base value at a path the override never reaches survives the merge. */
  lemma {:induction false} MergeValueUntouchedPath(target: Value, source: Value, p: Path, v: Value)
    requires Lookup(target, p) == Some(v)
    requires Untouched(source, p)
    ensures Lookup(MergeValue(target, source), p) == Some(v)
    decreases |p|
  {
    var k := p[0];
    var r := MergeValue(target, source);
    assert target.Obj? && k in target.fields;
    if k !in source.fields {
      assert r.fields[k] == target.fields[k];
    } else {
      MergeValueUntouchedPath(target.fields[k], source.fields[k], p[1..], v);
      assert r.fields[k] == MergeValue(target.fields[k], source.fields[k]);
    }
  }

  /** Every leaf path present in the overrides holds exactly the override's value
      in the merged theme. */
  lemma MergeThemeLeafWins(base: Theme, overrides: ThemeOverrides, p: Path, leaf: Value)
    requires Lookup(Obj(overrides), p) == Some(leaf)
    requires !leaf.Obj?
    ensures Lookup(Obj(MergeTheme(base, overrides)), p) == Some(leaf)
  {
    MergeValueLeafWins(Obj(base), Obj(overrides), p, leaf);
  }

  /** A key absent from the overrides, at any depth, keeps its base value. */
  lemma MergeThemeUntouchedPath(base: Theme, overrides: ThemeOverrides, p: Path, v: Value)
    requires Lookup(Obj(base), p) == Some(v)
    requires Untouched(Obj(overrides), p)
    ensures Lookup(Obj(MergeTheme(base, overrides)), p) == Some(v)
  {
    MergeValueUntouchedPath(Obj(base), Obj(overrides), p, v);
  }

  /** An empty override object gives back the base theme. */
  lemma MergeThemeEmpty(base: Theme)
    ensures MergeTheme(base, map[]) == base
  {
  }

  /** Merging a value onto itself changes nothing. */
  lemma {:induction false} MergeValueSelf(v: Value)
    ensures MergeValue(v, v) == v
    decreases v
  {
    if v.Obj? {
      var r := MergeValue(v, v);
      forall k | k in v.fields
        ensures r.fields[k] == v.fields[k]
      {
        MergeValueSelf(v.fields[k]);
      }
      assert r.fields.Keys == v.fields.Keys;
    }
  }

  /** Applying the same overrides a second time changes nothing. */
  lemma {:induction false} MergeValueIdempotent(target: Value, source: Value)
    ensures MergeValue(MergeValue(target, source), source) == MergeValue(target, source)
    decreases source
  {
    var m := MergeValue(target, source);
    if target.Obj? && source.Obj? {
      var r := MergeValue(m, source);
      forall k | k in m.fields
        ensures r.fields[k] == m.fields[k]
      {
        if k in source.fields {
          if k in target.fields {
            MergeValueIdempotent(target.fields[k], source.fields[k]);
          } else {
            MergeValueSelf(source.fields[k]);
          }
        }
      }
      assert r.fields.Keys == m.fields.Keys;
    } else {
      MergeValueSelf(source);
    }
  }

  /** Deriving the dark theme from an already-derived dark theme gives the same theme. */
  lemma GetDarkThemeIdempotent(lightTheme: Theme, darkOverrides: ThemeOverrides)
    ensures GetDarkTheme(GetDarkTheme(lightTheme, darkOverrides), darkOverrides)
         == GetDarkTheme(lightTheme, darkOverrides)
  {
    MergeValueIdempotent(Obj(lightTheme), Obj(darkOverrides));
  }

  /** The dark overrides only recolour palettes: a shade they name is replaced, a shade
      they leave out and every other category stay as in the light theme. */
  lemma DarkThemeExample()
    ensures var light := map[
              "colors" := Obj(map["primary" := Obj(map["50" := Str("#e6f2ff"), "500" := Str("#0066CC")])]),
              "spacing" := Obj(map["4" := Num(16.0)])];
            var dark := GetDarkTheme(light, map["colors" := Obj(map["primary" := Obj(map["50" := Str("#001429")])])]);
            && Lookup(Obj(dark), ["colors", "primary", "50"]) == Some(Str("#001429"))
            && Lookup(Obj(dark), ["colors", "primary", "500"]) == Some(Str("#0066CC"))
            && dark["spacing"] == light["spacing"]
  {
    var light := map[
      "colors" := Obj(map["primary" := Obj(map["50" := Str("#e6f2ff"), "500" := Str("#0066CC")])]),
      "spacing" := Obj(map["4" := Num(16.0)])];
    var overrides := map["colors" := Obj(map["primary" := Obj(map["50" := Str("#001429")])])];
    MergeThemeLeafWins(light, overrides, ["colors", "primary", "50"], Str("#001429"));
    MergeThemeUntouchedPath(light, overrides, ["colors", "primary", "500"], Str("#0066CC"));
  }
}
