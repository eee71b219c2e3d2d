/** Properties of declaring labels and of calling the generated accessors. */
module DeclarationLemmas {
  import opened RubyValues
  import opened Labels
  import opened Accessors
  import opened Declaration

  /** A method whose name no label defines is left as it was. */
  lemma {:induction false} DefineAllFrame(methods: MethodTable, labels: seq<string>, klass: string, name: string)
    requires name !in MethodNames(labels)
    ensures name in DefineAll(methods, labels, klass) <==> name in methods
    ensures name in methods ==> DefineAll(methods, labels, klass)[name] == methods[name]
    decreases |labels|
  {
    if labels != [] {
      DefineAllFrame(methods, labels[..|labels| - 1], klass, name);
    }
  }

  /** A declared label has the getter bound to "<label>_id" and the class,
      unless some label's setter shares its name. */
  lemma {:induction false} DefineAllGetter(methods: MethodTable, labels: seq<string>, klass: string, labelId: string)
    requires labelId in labels && GetterKept(labels, labelId)
    ensures var r := DefineAll(methods, labels, klass);
            labelId in r && r[labelId] == Getter(ForeignKey(labelId), klass)
    decreases |labels|
  {
    var init, last := labels[..|labels| - 1], labels[|labels| - 1];
    if labelId != last {
      assert labels == init + [last];
      assert labelId in init;
      assert forall l :: l in init ==> l in labels;
      DefineAllGetter(methods, init, klass, labelId);
      assert last in labels;
    }
  }

  /** A declared label has the setter bound to "<label>_id", unless some
      label is itself named like that setter. */
  lemma {:induction false} DefineAllSetter(methods: MethodTable, labels: seq<string>, klass: string, labelId: string)
    requires labelId in labels && SetterKept(labels, labelId)
    ensures var r := DefineAll(methods, labels, klass);
            SetterName(labelId) in r && r[SetterName(labelId)] == Setter(ForeignKey(labelId))
    decreases |labels|
  {
    var init, last := labels[..|labels| - 1], labels[|labels| - 1];
    if labelId != last {
      assert labels == init + [last];
      assert labelId in init;
      DefineAllSetter(methods, init, klass, labelId);
      assert last in labels;
      AppendCancel(labelId, last, "=");
    }
  }

  /** When a label is named like another label's setter, the later
      definition wins: with "a" then "a=", the name "a=" is a getter on
      "a=_id"; with "a=" then "a", it is the setter of "a". */
  lemma SetterNameClash(methods: MethodTable, klass: string)
    ensures DefineAll(methods, ["a", "a="], klass)["a="] == Getter("a=_id", klass)
    ensures DefineAll(methods, ["a", "a="], klass)["a"] == Getter("a_id", klass)
    ensures DefineAll(methods, ["a=", "a"], klass)["a="] == Setter("a_id")
  {
    assert ["a", "a="][..1] == ["a"] && ["a", "a="][..1][..0] == [];
    assert ["a=", "a"][..1] == ["a="] && ["a=", "a"][..1][..0] == [];
    assert SetterName("a") == "a=" && ForeignKey("a") == "a_id" && ForeignKey("a=") == "a=_id";
    assert SetterName("a=") == "a==";
  }

  /** The names a declaration defines do not depend on what was there before. */
  lemma {:induction false} DefineAllOverwrites(m1: MethodTable, m2: MethodTable, labels: seq<string>, klass: string, name: string)
    requires name in MethodNames(labels)
    ensures name in DefineAll(m1, labels, klass) && name in DefineAll(m2, labels, klass)
    ensures DefineAll(m1, labels, klass)[name] == DefineAll(m2, labels, klass)[name]
    decreases |labels|
  {
    var init, last := labels[..|labels| - 1], labels[|labels| - 1];
    if name != last && name != SetterName(last) {
      DefineAllOverwrites(m1, m2, init, klass, name);
    }
  }

  /** Repeating the same declaration changes nothing. */
  lemma RedeclareSameIsNoOp(methods: MethodTable, labels: seq<string>, klass: string)
    ensures DefineAll(DefineAll(methods, labels, klass), labels, klass) == DefineAll(methods, labels, klass)
  {
    var once := DefineAll(methods, labels, klass);
    var twice := DefineAll(once, labels, klass);
    forall name | name in twice ensures twice[name] == once[name] {
      if name in MethodNames(labels) {
        DefineAllOverwrites(once, methods, labels, klass, name);
      } else {
        DefineAllFrame(once, labels, klass, name);
      }
    }
  }

  /** A declaration fails with InvalidOption exactly when some option key is
      not `:as`; a rejected declaration defines nothing. */
  lemma DeclareRejectsUnknownOption(methods: MethodTable, association: string, options: map<Value, Value>,
                                    registry: map<string, string>)
    ensures (exists k :: k in options && k != AsKey) <==>
            Declare(methods, association, options, registry).Rejected? &&
            Declare(methods, association, options, registry).error.InvalidOption?
  {
    if exists k :: k in options && k != AsKey {
      var k :| k in options && k != AsKey;
      assert k in UnknownKeys(options);
    }
  }

  /** Omitting `:as` defines one pair, named "" and "=", on the column "_id";
      the label does not default to the association's singular name. */
  lemma DeclareWithoutAs(methods: MethodTable, association: string, registry: map<string, string>)
    requires association in registry
    ensures Declare(methods, association, map[], registry) ==
            Declared(methods["" := Getter("_id", registry[association])]["=" := Setter("_id")])
  {
    assert UnknownKeys(map[]) == {};
    var options: map<Value, Value> := map[];
    assert AsOption(options) == Nil;
    assert GetLabels(AsOption(options)) == [""];
    assert [""][..0] == [];
    assert SetterName("") == "=" && ForeignKey("") == "_id";
    assert DefineAll(methods, [""], registry[association]) == DefineLabel(DefineAll(methods, [], registry[association]), "", registry[association]);
  }

  /** A successful declaration gives each of its labels its getter, bound to
      the class resolved for it, and its setter (each unless another label of
      the same declaration claims that name), and keeps every method whose
      name it does not define; so a label declared again now points at the
      new declaration. */
  lemma DeclareDefinesEachLabel(methods: MethodTable, association: string, options: map<Value, Value>,
                                registry: map<string, string>, name: string)
    requires Declare(methods, association, options, registry).Declared?
    ensures var labels := GetLabels(AsOption(options));
            var r := Declare(methods, association, options, registry).methods;
            (name in labels && GetterKept(labels, name) ==>
               name in r && r[name] == Getter(ForeignKey(name), registry[association])) &&
            (name in labels && SetterKept(labels, name) ==>
               SetterName(name) in r && r[SetterName(name)] == Setter(ForeignKey(name))) &&
            (name !in MethodNames(labels) ==>
               (name in r <==> name in methods) && (name in methods ==> r[name] == methods[name]))
  {
    var labels := GetLabels(AsOption(options));
    if association in registry {
      if name in labels && GetterKept(labels, name) {
        DefineAllGetter(methods, labels, registry[association], name);
      }
      if name in labels && SetterKept(labels, name) {
        DefineAllSetter(methods, labels, registry[association], name);
      }
      if name !in MethodNames(labels) {
        DefineAllFrame(methods, labels, registry[association], name);
      }
    } else {
      assert labels == [];
    }
  }

  lemma AppendCancel(a: string, b: string, suffix: string)
    ensures a + suffix == b + suffix ==> a == b
  {
    if a + suffix == b + suffix {
      assert a == (a + suffix)[..|a|];
      assert b == (b + suffix)[..|b|];
    }
  }

  /** Two labels of one declaration are independent: assigning through one
      leaves the other's column and the other's getter result unchanged. */
  lemma LabelsAreIndependent(methods: MethodTable, labels: seq<string>, klass: string,
                             l1: string, l2: string, arg: SetterArg,
                             attributes: map<string, FkValue>, tables: map<string, Table>)
    requires l1 in labels && l2 in labels && l1 != l2
    requires SetterKept(labels, l1) && GetterKept(labels, l2)
    ensures var m := DefineAll(methods, labels, klass);
            var afterSet := Dispatch(m, attributes, SetterName(l1), [arg], tables);
            afterSet.result == Assigned &&
            ReadAttribute(afterSet.attributes, ForeignKey(l1)) == StoredId(arg) &&
            ReadAttribute(afterSet.attributes, ForeignKey(l2)) == ReadAttribute(attributes, ForeignKey(l2)) &&
            Dispatch(m, afterSet.attributes, l2, [], tables).result == Dispatch(m, attributes, l2, [], tables).result
  {
    DefineAllSetter(methods, labels, klass, l1);
    DefineAllGetter(methods, labels, klass, l2);
    AppendCancel(l1, l2, "_id");
  }

  /** Assigning an existing row to a declared label and reading the label back
      returns that row. */
  lemma DeclaredRoundTrip(methods: MethodTable, labels: seq<string>, klass: string, labelId: string,
                          arg: SetterArg, t: Target,
                          attributes: map<string, FkValue>, tables: map<string, Table>)
    requires labelId in labels && GetterKept(labels, labelId) && SetterKept(labels, labelId)
    requires WellKeyed(TableOf(tables, klass))
    requires t in TableOf(tables, klass).Values && !Blank(t.id) && StoredId(arg) == t.id
    ensures var m := DefineAll(methods, labels, klass);
            var afterSet := Dispatch(m, attributes, SetterName(labelId), [arg], tables);
            Dispatch(m, afterSet.attributes, labelId, [], tables) == Dispatched(Returned(Some(t)), afterSet.attributes)
  {
    DefineAllSetter(methods, labels, klass, labelId);
    DefineAllGetter(methods, labels, klass, labelId);
    SetThenGet(attributes, ForeignKey(labelId), TableOf(tables, klass), t, arg);
  }

  /** Reading a declared label whose id is stale returns nil and clears the
      column; a second read then returns nil without change. */
  lemma DeclaredHealing(methods: MethodTable, labels: seq<string>, klass: string, labelId: string,
                        attributes: map<string, FkValue>, tables: map<string, Table>)
    requires labelId in labels && GetterKept(labels, labelId)
    requires !Blank(ReadAttribute(attributes, ForeignKey(labelId)))
    requires ReadAttribute(attributes, ForeignKey(labelId)) !in TableOf(tables, klass)
    ensures var m := DefineAll(methods, labels, klass);
            var healed := attributes[ForeignKey(labelId) := Null];
            Dispatch(m, attributes, labelId, [], tables) == Dispatched(Returned(None), healed) &&
            Dispatch(m, healed, labelId, [], tables) == Dispatched(Returned(None), healed)
  {
    DefineAllGetter(methods, labels, klass, labelId);
  }
}
