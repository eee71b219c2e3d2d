/** `label_one_of_many` and `define_label_methods`: the declaring model's
    method table, the per-label getter/setter pairs added to it, and calls
    that dispatch through that table. */
module Declaration {
  import opened RubyValues
  import opened Labels
  import opened Accessors

  /** A generated method: the getter remembers its column and the target
      class resolved when it was declared; the setter only its column. */
  datatype MethodDef = Getter(column: string, target: string) | Setter(column: string)

  /** The declaring model's methods that the macro defined, by name. */
  type MethodTable = map<string, MethodDef>

  /** Why a declaration fails: unknown option keys (`assert_valid_keys`), or an
      association name that names no class (`constantize`). */
  datatype DeclError = InvalidOption(unknown: set<Value>) | NameError(association: string)

  /** The outcome of a declaration: the new method table, or the error raised. */
  datatype Declared = Declared(methods: MethodTable) | Rejected(error: DeclError)

  /** The only option key accepted. */
  const AsKey: Value := Sym("as")

  function ForeignKey(labelId: string): (column: string) { labelId + "_id" }

  function SetterName(labelId: string): (name: string) { labelId + "=" }

  /** The names a list of labels defines: each label and its setter name. */
  ghost function MethodNames(labels: seq<string>): (names: set<string>)
  {
    if labels == [] then {}
    else MethodNames(labels[..|labels| - 1]) + {labels[|labels| - 1], SetterName(labels[|labels| - 1])}
  }

  /** No label of the list has a setter named `labelId`, so nothing in the
      list can replace the getter `labelId` defines. */
  predicate GetterKept(labels: seq<string>, labelId: string)
  {
    forall l :: l in labels ==> SetterName(l) != labelId
  }

  /** No label of the list is named like `labelId`'s setter, so nothing in
      the list can replace that setter. */
  predicate SetterKept(labels: seq<string>, labelId: string)
  {
    SetterName(labelId) !in labels
  }

  /** The option keys other than `:as`: none exactly when `:as` is the only
      key given, if any. */
  function UnknownKeys(options: map<Value, Value>): (unknown: set<Value>)
    ensures unknown <= options.Keys && AsKey !in unknown
    ensures unknown == {} <==> options.Keys <= {AsKey}
  {
    set k | k in options && k != AsKey
  }

  /** `options[:as]`: nil when the key is absent, so that an omitted `:as`
      gives the single label "". */
  function AsOption(options: map<Value, Value>): (asValue: Value)
    ensures AsKey !in options ==> GetLabels(asValue) == [""]
    ensures AsKey in options ==> asValue == options[AsKey]
  {
    if AsKey in options then options[AsKey] else Nil
  }

  /** `define_label_methods` for one label: the getter and setter pair bound
      to the column "<label>_id" replaces whatever those two names held. */
  function DefineLabel(methods: MethodTable, labelId: string, klass: string): (r: MethodTable)
    ensures r.Keys == methods.Keys + {labelId, SetterName(labelId)}
    ensures r[labelId] == Getter(ForeignKey(labelId), klass)
    ensures r[SetterName(labelId)] == Setter(ForeignKey(labelId))
    ensures forall n :: n in methods && n != labelId && n != SetterName(labelId) ==> r[n] == methods[n]
  {
    methods[labelId := Getter(ForeignKey(labelId), klass)][SetterName(labelId) := Setter(ForeignKey(labelId))]
  }

  /** The labels defined one after another, in list order. */
  function DefineAll(methods: MethodTable, labels: seq<string>, klass: string): (r: MethodTable)
    ensures r.Keys == methods.Keys + MethodNames(labels)
    decreases |labels|
  {
    if labels == [] then methods
    else DefineLabel(DefineAll(methods, labels[..|labels| - 1], klass), labels[|labels| - 1], klass)
  }

  /** Defining one more label of the list extends the definitions made so far. */
  lemma DefineAllStep(methods: MethodTable, labels: seq<string>, i: nat, klass: string)
    requires i < |labels|
    ensures DefineAll(methods, labels[..i + 1], klass) == DefineLabel(DefineAll(methods, labels[..i], klass), labels[i], klass)
  {
    assert labels[..i + 1][..i] == labels[..i];
  }

  /** `label_one_of_many`: the option keys are checked first; the association
      is then resolved once per label, so it is an error only when there is at
      least one label to define. */
  function Declare(methods: MethodTable, association: string, options: map<Value, Value>,
                   registry: map<string, string>): (r: Declared)
    ensures r.Declared? ==> r.methods.Keys == methods.Keys + MethodNames(GetLabels(AsOption(options)))
    ensures r.Rejected? && r.error.NameError? ==>
              association !in registry && GetLabels(AsOption(options)) != [] && r.error.association == association
  {
    if UnknownKeys(options) != {} then Rejected(InvalidOption(UnknownKeys(options)))
    else if association in registry then Declared(DefineAll(methods, GetLabels(AsOption(options)), registry[association]))
    else if GetLabels(AsOption(options)) == [] then Declared(methods)
    else Rejected(NameError(association))
  }

  /** With valid option keys, a declaration defines every label with the
      resolved class, and fails only when there is a label and no class: the
      association is resolved per label, at declaration time. */
  lemma DeclareWithValidKeys(methods: MethodTable, association: string, options: map<Value, Value>,
                             registry: map<string, string>)
    requires UnknownKeys(options) == {}
    ensures association in registry ==>
      Declare(methods, association, options, registry) ==
      Declared(DefineAll(methods, GetLabels(AsOption(options)), registry[association]))
    ensures association !in registry && GetLabels(AsOption(options)) == [] ==>
      Declare(methods, association, options, registry) == Declared(methods)
    ensures association !in registry && GetLabels(AsOption(options)) != [] ==>
      Declare(methods, association, options, registry) == Rejected(NameError(association))
  {
  }

  /** A declaring model class, holding the methods the macro has defined. */
  class ModelClass {
    var methods: MethodTable

    constructor ()
      ensures methods == map[]
    {
      methods := map[];
    }

    /** `define_label_methods`: resolves the association, then defines the pair. */
    method DefineLabelMethods(association: string, labelId: string, registry: map<string, string>)
      returns (error: Option<DeclError>)
      modifies this
      ensures association in registry ==>
        error == None && methods == DefineLabel(old(methods), labelId, registry[association])
      ensures association !in registry ==>
        error == Some(NameError(association)) && methods == old(methods)
    {
      if association !in registry {
        return Some(NameError(association));
      }
      var klass := registry[association];
      methods := methods[labelId := Getter(ForeignKey(labelId), klass)];
      methods := methods[SetterName(labelId) := Setter(ForeignKey(labelId))];
      error := None;
    }

    /** The `each` loop of `label_one_of_many`: `define_label_methods` for
        every label, in list order, stopping at the first error. */
    method DefineEach(association: string, labels: seq<string>, registry: map<string, string>)
      returns (error: Option<DeclError>)
      modifies this
      ensures association in registry ==>
        error == None && methods == DefineAll(old(methods), labels, registry[association])
      ensures association !in registry ==>
        methods == old(methods) && error == (if labels == [] then None else Some(NameError(association)))
    {
      ghost var before := methods;
      error := None;
      var i := 0;
      while i < |labels|
        invariant 0 <= i <= |labels|
        invariant error == None
        invariant i == 0 ==> methods == before
        invariant i > 0 ==> association in registry &&
                            methods == DefineAll(before, labels[..i], registry[association])
      {
        error := DefineLabelMethods(association, labels[i], registry);
        if error.Some? {
          return;
        }
        DefineAllStep(before, labels, i, registry[association]);
        i := i + 1;
      }
      assert labels[..i] == labels;
    }

    /** `label_one_of_many`: rejects unknown option keys before defining
        anything, then defines each normalised label in order. */
    method LabelOneOfMany(association: string, options: map<Value, Value>, registry: map<string, string>)
      returns (error: Option<DeclError>)
      modifies this
      ensures error.Some? ==> methods == old(methods)
      ensures Declare(old(methods), association, options, registry) ==
              (if error.None? then Declared(methods) else Rejected(error.value))
    {
      var unknown := UnknownKeys(options);
      if unknown != {} {
        return Some(InvalidOption(unknown));
      }
      var labels := GetLabels(AsOption(options));
      DeclareWithValidKeys(methods, association, options, registry);
      error := DefineEach(association, labels, registry);
    }
  }

  /** What a call through the method table gives back. */
  datatype CallResult = Returned(value: Option<Target>) | Assigned
                      | NoMethodError(name: string) | ArgumentError(given: nat, expected: nat)

  /** A call's result and the record's attributes afterwards. */
  datatype Dispatched = Dispatched(result: CallResult, attributes: map<string, FkValue>)

  /** The table of a target class; a class with no rows has the empty table. */
  function TableOf(tables: map<string, Table>, klass: string): (table: Table)
  {
    if klass in tables then tables[klass] else map[]
  }

  /** Calling `name` with `args` on a record whose class has `methods`. */
  function Dispatch(methods: MethodTable, attributes: map<string, FkValue>, name: string,
                    args: seq<SetterArg>, tables: map<string, Table>): (d: Dispatched)
    ensures name !in methods ==> d == Dispatched(NoMethodError(name), attributes)
    ensures d.result.Returned? ==> name in methods && methods[name].Getter?
    ensures d.result.Assigned? ==> name in methods && methods[name].Setter? && |args| == 1
  {
    if name !in methods then Dispatched(NoMethodError(name), attributes)
    else match methods[name]
      case Getter(column, klass) =>
        if |args| != 0 then Dispatched(ArgumentError(|args|, 0), attributes)
        else
          var g := Get(attributes, column, TableOf(tables, klass));
          Dispatched(Returned(g.value), g.attributes)
      case Setter(column) =>
        if |args| != 1 then Dispatched(ArgumentError(|args|, 1), attributes)
        else Dispatched(Assigned, Set(attributes, column, args[0]))
  }

  /** `record.send(name, *args)` on a record of `model`. */
  method Send(model: ModelClass, record: Record, name: string, args: seq<SetterArg>,
              tables: map<string, Table>) returns (result: CallResult)
    modifies record
    ensures Dispatched(result, record.attributes) ==
            Dispatch(model.methods, old(record.attributes), name, args, tables)
  {
    if name !in model.methods {
      return NoMethodError(name);
    }
    match model.methods[name]
    case Getter(column, klass) =>
      if |args| != 0 {
        return ArgumentError(|args|, 0);
      }
      var target := record.GetLabel(column, TableOf(tables, klass));
      result := Returned(target);
    case Setter(column) =>
      if |args| != 1 {
        return ArgumentError(|args|, 1);
      }
      record.SetLabel(column, args[0]);
      result := Assigned;
  }
}
