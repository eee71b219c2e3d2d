/** `get_labels`: turning the `:as` option into the ordered list of label names. */
module Labels {
  import opened RubyValues

  /** `Array#flatten`: every nested Array is spliced in, recursively, so the
      result holds only the non-Array leaves, in left-to-right order. */
  function Flatten(xs: seq<Value>): (leaves: seq<Value>)
    ensures forall x :: x in leaves ==> !x.Arr?
  {
    if xs == [] then []
    else (if xs[0].Arr? then Flatten(xs[0].elems) else [xs[0]]) + Flatten(xs[1..])
  }

  /** `map! { |label_id| label_id.to_s }` over a list of leaves. */
  function Strings(leaves: seq<Value>): (names: seq<string>)
    requires forall x :: x in leaves ==> !x.Arr?
    ensures |names| == |leaves|
    ensures forall i :: 0 <= i < |leaves| ==> names[i] == ToS(leaves[i])
  {
    if leaves == [] then [] else [ToS(leaves[0])] + Strings(leaves[1..])
  }

  /** The label list: the argument is pushed onto an empty Array, the Array is
      flattened in place and every element is converted to a String. A bare
      String, Symbol or nil is one label, its string form (nil gives ""); an
      empty Array is none. */
  function GetLabels(labelIds: Value): (labels: seq<string>)
    ensures !labelIds.Arr? ==> labels == [ToS(labelIds)]
    ensures labelIds == Arr([]) ==> labels == []
  {
    FlattenSingleton(labelIds);
    Strings(Flatten([labelIds]))
  }

  /** Helper: label names wrapped as String values, to state that normalising
      an already normalised list changes nothing. */
  function AsStrings(names: seq<string>): (values: seq<Value>)
    ensures |values| == |names|
    ensures forall i :: 0 <= i < |names| ==> values[i] == Str(names[i])
  {
    if names == [] then [] else [Str(names[0])] + AsStrings(names[1..])
  }

  lemma {:induction false} FlattenAppend(xs: seq<Value>, ys: seq<Value>)
    ensures Flatten(xs + ys) == Flatten(xs) + Flatten(ys)
  {
    if xs == [] {
      assert xs + ys == ys;
    } else {
      assert (xs + ys)[0] == xs[0];
      assert (xs + ys)[1..] == xs[1..] + ys;
      FlattenAppend(xs[1..], ys);
    }
  }

  lemma {:induction false} StringsAppend(xs: seq<Value>, ys: seq<Value>)
    requires forall x :: x in xs ==> !x.Arr?
    requires forall y :: y in ys ==> !y.Arr?
    ensures Strings(xs + ys) == Strings(xs) + Strings(ys)
  {
    if xs == [] {
      assert xs + ys == ys;
    } else {
      assert (xs + ys)[0] == xs[0];
      assert (xs + ys)[1..] == xs[1..] + ys;
      assert forall x :: x in xs[1..] ==> x in xs;
      StringsAppend(xs[1..], ys);
    }
  }

  lemma FlattenSingleton(v: Value)
    ensures Flatten([v]) == if v.Arr? then Flatten(v.elems) else [v]
  {
    assert [v][1..] == [];
  }

  /** The labels of an Array are the labels of its elements, concatenated. */
  lemma {:induction false} GetLabelsOfArray(xs: seq<Value>)
    ensures xs == [] ==> GetLabels(Arr(xs)) == []
    ensures xs != [] ==> GetLabels(Arr(xs)) == GetLabels(xs[0]) + GetLabels(Arr(xs[1..]))
  {
    FlattenSingleton(Arr(xs));
    if xs != [] {
      FlattenSingleton(Arr(xs[1..]));
      assert xs == [xs[0]] + xs[1..];
      FlattenAppend([xs[0]], xs[1..]);
      assert Flatten(xs) == Flatten([xs[0]]) + Flatten(xs[1..]);
      StringsAppend(Flatten([xs[0]]), Flatten(xs[1..]));
    }
  }

  /** An Array of Strings and Symbols gives one label per element, in the same
      order and with duplicates kept. */
  lemma {:induction false} GetLabelsOfFlatArray(xs: seq<Value>)
    requires forall x :: x in xs ==> !x.Arr?
    ensures |GetLabels(Arr(xs))| == |xs|
    ensures forall i :: 0 <= i < |xs| ==> GetLabels(Arr(xs))[i] == ToS(xs[i])
  {
    FlattenSingleton(Arr(xs));
    FlattenOfLeaves(xs);
    assert GetLabels(Arr(xs)) == Strings(xs);
  }

  /** A list without Arrays is already flat. */
  lemma {:induction false} FlattenOfLeaves(xs: seq<Value>)
    requires forall x :: x in xs ==> !x.Arr?
    ensures Flatten(xs) == xs
  {
    if xs != [] {
      assert xs[0] in xs;
      assert forall x :: x in xs[1..] ==> x in xs;
      FlattenOfLeaves(xs[1..]);
      assert xs == [xs[0]] + xs[1..];
    }
  }

  /** Flattening is complete: an Array nested anywhere in the list contributes
      exactly its own labels, as if its elements had been written in its place. */
  lemma {:induction false} GetLabelsSplice(xs: seq<Value>, ys: seq<Value>, zs: seq<Value>)
    ensures GetLabels(Arr(xs + [Arr(ys)] + zs)) == GetLabels(Arr(xs + ys + zs))
  {
    calc {
      Flatten([Arr(xs + [Arr(ys)] + zs)]);
      { FlattenSingleton(Arr(xs + [Arr(ys)] + zs)); }
      Flatten(xs + [Arr(ys)] + zs);
      { FlattenAppend(xs + [Arr(ys)], zs); FlattenAppend(xs, [Arr(ys)]); }
      Flatten(xs) + Flatten([Arr(ys)]) + Flatten(zs);
      { FlattenSingleton(Arr(ys)); }
      Flatten(xs) + Flatten(ys) + Flatten(zs);
      { FlattenAppend(xs + ys, zs); FlattenAppend(xs, ys); }
      Flatten(xs + ys + zs);
      { FlattenSingleton(Arr(xs + ys + zs)); }
      Flatten([Arr(xs + ys + zs)]);
    }
  }

  /** Normalisation is a fixed point: passing the label list back as `:as`
      (as an Array of Strings) yields the same list. */
  lemma {:induction false} GetLabelsIdempotent(v: Value)
    ensures GetLabels(Arr(AsStrings(GetLabels(v)))) == GetLabels(v)
  {
    var names := GetLabels(v);
    var values := AsStrings(names);
    assert forall x :: x in values ==> !x.Arr?;
    GetLabelsOfFlatArray(values);
  }
}
