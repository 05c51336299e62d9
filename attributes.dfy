/**
 * `make_attr`: the GFF-style attribute string of a feature, the fields
 * `ID=`, `Parent=`, `Name=`, one `key=value` per remaining list-valued key
 * and `color=`, joined by semicolons.
 */
module Attributes {
  import opened Wrappers
  import opened Text
  import opened Records

  /** The list-valued keys that are not skipped, in dictionary order. */
  function Kept(pairs: seq<(string, Values)>, skip: set<string>): (r: seq<(string, Values)>)
    ensures |r| <= |pairs|
  {
    if pairs == [] then []
    else (if pairs[0].0 !in skip then [pairs[0]] else []) + Kept(pairs[1..], skip)
  }

  /** `f"{key}={value[0]}"` for each pair. */
  function Fields(pairs: seq<(string, Values)>): (r: seq<string>)
    ensures |r| == |pairs|
  {
    seq(|pairs|, i requires 0 <= i < |pairs| => pairs[i].0 + "=" + pairs[i].1[0])
  }

  /** The optional color field: present only for a non-empty color. */
  function ColorField(color: Option<string>): seq<string>
  {
    if color.Some? && color.value != "" then ["color=" + color.value] else []
  }

  /** The parent field: present only when `parent_id` is truthy. */
  function ParentField(f: Feature): seq<string>
  {
    if OptIdTruthy(f.parentId) then ["Parent=" + IdText(f.parentId.value)] else []
  }

  /** The fields of the attribute string, in order. */
  function AttrFields(f: Feature, skip: set<string>, color: Option<string>): seq<string>
  {
    ["ID=" + IdText(f.id)] + ParentField(f) + ["Name=" + f.name] + Fields(Kept(Items(f), skip)) + ColorField(color)
  }

  /** The attribute string `make_attr(feat, color)`. */
  function AttrString(f: Feature, skip: set<string>, color: Option<string>): string
  {
    Join(AttrFields(f, skip, color), ";")
  }

  /** `make_attr(feat, color)`, with `skip` the keys left out (`SKIP_GFF_ATTR`). */
  method MakeAttr(f: Feature, skip: set<string>, color: Option<string>) returns (attr: string)
    ensures attr == AttrString(f, skip, color)
  {
    var name := f.name;
    var uid := f.id;
    var pid := f.parentId;
    var data := ["ID=" + IdText(uid)];
    if OptIdTruthy(pid) {
      data := data + ["Parent=" + IdText(pid.value)];
    }
    data := data + ["Name=" + name];
    ghost var head := data;
    assert head == ["ID=" + IdText(f.id)] + ParentField(f) + ["Name=" + f.name];
    var pairs := Kept(Items(f), skip);
    var i := 0;
    while i < |pairs|
      invariant 0 <= i <= |pairs|
      invariant data == head + Fields(pairs[..i])
    {
      var (key, value) := pairs[i];
      assert Fields(pairs[..i + 1]) == Fields(pairs[..i]) + [key + "=" + value[0]];
      data := data + [key + "=" + value[0]];
      i := i + 1;
    }
    assert pairs[..i] == pairs;
    if color.Some? && color.value != "" {
      data := data + ["color=" + color.value];
    }
    assert data == AttrFields(f, skip, color);
    attr := Join(data, ";");
  }

  /** The kept pairs are exactly the pairs whose key is not skipped. */
  lemma {:induction false} KeptMembers(pairs: seq<(string, Values)>, skip: set<string>, p: (string, Values))
    ensures p in Kept(pairs, skip) <==> p in pairs && p.0 !in skip
    decreases |pairs|
  {
    if pairs != [] {
      KeptMembers(pairs[1..], skip, p);
      assert pairs == [pairs[0]] + pairs[1..];
    }
  }

  /**
   * The layout of the fields: `ID=` first, `Parent=` second exactly when the
   * parent id is truthy, then `Name=`, then one field per kept key, and
   * `color=` last exactly when a color is given.
   */
  lemma AttrLayout(f: Feature, skip: set<string>, color: Option<string>)
    ensures var fs := AttrFields(f, skip, color);
      var p := if OptIdTruthy(f.parentId) then 1 else 0;
      var c := if color.Some? && color.value != "" then 1 else 0;
      var kept := Kept(Items(f), skip);
      && |fs| == 2 + p + |kept| + c
      && fs[0] == "ID=" + IdText(f.id)
      && (p == 1 ==> fs[1] == "Parent=" + IdText(f.parentId.value))
      && fs[1 + p] == "Name=" + f.name
      && (forall i :: 0 <= i < |kept| ==> fs[2 + p + i] == kept[i].0 + "=" + kept[i].1[0])
      && (c == 1 ==> fs[|fs| - 1] == "color=" + color.value)
  {
  }

  /** The attribute string always starts with the id field. */
  lemma AttrStartsWithId(f: Feature, skip: set<string>, color: Option<string>)
    ensures StartsWith(AttrString(f, skip, color), "ID=" + IdText(f.id))
  {
    var fs := AttrFields(f, skip, color);
    if |fs| > 1 {
      assert Join(fs, ";") == fs[0] + ";" + Join(fs[1..], ";");
    }
  }

  /** When no field holds a semicolon, splitting the attribute string on `;` gives the fields back. */
  lemma AttrFieldsRecovered(f: Feature, skip: set<string>, color: Option<string>)
    requires forall i :: 0 <= i < |AttrFields(f, skip, color)| ==> ';' !in AttrFields(f, skip, color)[i]
    ensures Split(AttrString(f, skip, color), ';') == AttrFields(f, skip, color)
  {
    SplitJoin(AttrFields(f, skip, color), ';');
  }
}
