# Labelize, modelled in Dafny

Labelize adds one class macro to ActiveRecord models, `label_one_of_many`. It
declares single-valued "label" associations that are stored as foreign-key
columns on the declaring model's own table. For example,
`label_one_of_many :employees, :as => [:president, :manager]` gives `Company`
the methods `president`, `president=`, `manager` and `manager=`. They work on
the columns `president_id` and `manager_id`.

This project models the whole macro in `lib/labelize.rb`:

- `ruby_values.dfy` (module `RubyValues`): the Ruby values the macro receives.
  These are nil, Strings, Symbols and nested Arrays. The module also gives
  `to_s` on them.
- `labels.dfy` (module `Labels`): `get_labels`. It is modelled as pure
  functions (`Flatten`, `Strings`, `GetLabels`) with lemmas.
- `accessors.dfy` (module `Accessors`): the bodies of the generated getter and
  setter.
  - `Record` is a class holding the record's attribute map. Its methods
    `GetLabel` and `SetLabel` change that map in place.
  - `Get` and `Set` are the functions that specify these methods.
  - The target model's rows are a `Table`, a map from id to row. `find`
    raising `RecordNotFound` is a lookup that misses.
- `declaration.dfy` (module `Declaration`): the declaring model's method table.
  - `ModelClass` has the methods `LabelOneOfMany`, `DefineEach` (its loop over
    the labels) and `DefineLabelMethods`.
  - `DefineLabel`, `DefineAll` and `Declare` are the functions that specify them.
  - `Dispatch` and `Send` model calling a generated method by name on a record.
- `declaration_lemmas.dfy` (module `DeclarationLemmas`): properties of
  declarations and of the generated accessors used together.

Resolving the association name to a class (`classify.constantize`) is modelled
as a `registry` map from association name to class name. Resolution happens at
declaration time, once for each label. So an unknown association is an error
only when at least one label is being defined. A getter remembers the class
that was resolved when it was declared.

Where the doc comment and the code disagree, the model follows the code. The
comment at `lib/labelize.rb:35-37` says that an omitted `:as` defaults to the
singular name of the association. The code passes `nil` to `get_labels`, and
that returns `[""]`. So omitting `:as` defines a method named `""` and a method
named `"="`, both on the column `"_id"`. `DeclarationLemmas.DeclareWithoutAs`
states this behaviour.

## Model

| member | source | states |
|---|---|---|
| Labels.Flatten | lib/labelize.rb:99 | `flatten!` leaves no Array in the list, at any depth |
| Labels.Strings | lib/labelize.rb:100 | the block `label_id.to_s` given to `labels.map!` keeps the length and converts each leaf to its string form, position by position |
| Labels.GetLabels | lib/labelize.rb:97-101 | a bare String, Symbol or nil gives exactly one label, its `to_s` (nil gives `[""]`); an empty Array gives no label (the general case is stated by the lemmas below) |
| Labels.FlattenAppend | lib/labelize.rb:99 | flattening a concatenation is the concatenation of the flattened parts |
| Labels.GetLabelsOfArray | lib/labelize.rb:97-101 | an empty Array gives no labels; an Array's labels are its first element's labels followed by the rest's labels |
| Labels.GetLabelsOfFlatArray | lib/labelize.rb:99-100 | an Array of Strings/Symbols gives one label per element, same order, duplicates kept |
| Labels.GetLabelsSplice | lib/labelize.rb:99 | an Array nested anywhere contributes its labels in its place: flattening is complete |
| Labels.GetLabelsIdempotent | lib/labelize.rb:97-101 | passing the normalised list back as `:as` gives the same list |
| Accessors.Blank | lib/labelize.rb:73 | `blank?` holds only of nil and of Strings (an Integer id is never blank), and holds of the empty String |
| Accessors.ReadAttribute | lib/labelize.rb:73 | a column the record lacks reads as blank; a non-blank read is the value the record stores |
| Accessors.StoredId | lib/labelize.rb:86-91 | an object's `id` is stored as it is; a raw Integer or String id is never stored as nil |
| Accessors.Get | lib/labelize.rb:72-82 | a non-nil result is the row stored under the column's id; after a nil result the column is blank; no other column changes and no column is added |
| Accessors.Set | lib/labelize.rb:85-92 | the column holds the raw id or the object's id afterwards; every other column is unchanged |
| Accessors.Record.GetLabel | lib/labelize.rb:72-82 | the getter's result and the record's new attributes are those given by `Get` |
| Accessors.Record.SetLabel | lib/labelize.rb:85-92 | the record's new attributes are those given by `Set` |
| Accessors.GetOnBlank | lib/labelize.rb:73-81 | a blank id returns nil and leaves the record unchanged |
| Accessors.GetOnLiveId | lib/labelize.rb:73-75 | an id that resolves returns its row and leaves the record unchanged |
| Accessors.GetHealsStaleId | lib/labelize.rb:74-78 | an id that does not resolve is overwritten with nil and nil is returned; a second call changes nothing |
| Accessors.GetIdempotent | lib/labelize.rb:72-82 | calling the getter twice has the same result and effect as calling it once |
| Accessors.GetLeavesNoDanglingId | lib/labelize.rb:72-82 | after the getter the column is blank or names an existing row |
| Accessors.SetThenGet | lib/labelize.rb:72-91 | assigning an existing row (or its raw id) and then reading returns that row |
| Declaration.UnknownKeys | lib/labelize.rb:57 | the rejected keys are option keys other than the Symbol `:as`, and there are none exactly when every key given is `:as` |
| Declaration.AsOption | lib/labelize.rb:62 | `options[:as]` is the value given, and when `:as` is omitted the label list is `[""]` |
| Declaration.DefineLabel | lib/labelize.rb:68-92 | the label gets a getter bound to `<label>_id` and the resolved class, and a setter on the same column; every other name is unchanged |
| Declaration.DefineAll | lib/labelize.rb:62-64 | defining the labels in order adds exactly each label name and its setter name to the table |
| Declaration.Declare | lib/labelize.rb:56-65 | a successful declaration adds exactly the names of the normalised labels' pairs; a NameError arises only when the association is unresolvable and there is a label to define |
| Declaration.DeclareWithValidKeys | lib/labelize.rb:56-69 | with valid keys: a resolvable association defines every label with its class; an unresolvable one changes nothing when there is no label and raises NameError otherwise (the association is resolved per label) |
| Declaration.ModelClass.DefineEach | lib/labelize.rb:62-64 | with a resolvable association, the new table is every label defined in order; otherwise nothing changes, and a NameError is raised exactly when there is a label |
| Declaration.ModelClass.DefineLabelMethods | lib/labelize.rb:68-94 | with a resolvable association the pair is defined; otherwise a NameError is raised and nothing is defined |
| Declaration.ModelClass.LabelOneOfMany | lib/labelize.rb:56-65 | the method table and the error raised are those given by `Declare`; a failed call defines nothing |
| Declaration.Dispatch | lib/labelize.rb:72-92 | an undefined name raises NoMethodError and changes nothing; a getter result comes only from a getter and an assignment only from a setter called with one argument |
| Declaration.Send | lib/labelize.rb:72-92 | the call's result and the record's new attributes are those given by `Dispatch` |
| DeclarationLemmas.DefineAllFrame | lib/labelize.rb:62-64 | methods whose names the labels do not define are unchanged |
| DeclarationLemmas.DefineAllGetter | lib/labelize.rb:62-82 | every declared label has the getter on `<label>_id` with the resolved class, unless another label's setter has its name |
| DeclarationLemmas.DefineAllSetter | lib/labelize.rb:62-92 | every declared label has the setter on `<label>_id`, unless another label is named like that setter |
| DeclarationLemmas.SetterNameClash | lib/labelize.rb:62-92 | when one label is named like another's setter, the later definition wins: `["a", "a="]` makes `"a="` a getter on `"a=_id"`, `["a=", "a"]` makes it the setter of `"a"` |
| DeclarationLemmas.DefineAllOverwrites | lib/labelize.rb:72-85 | the methods a declaration defines do not depend on what was defined before: redeclaring replaces |
| DeclarationLemmas.RedeclareSameIsNoOp | lib/labelize.rb:56-92 | repeating the same declaration changes nothing |
| DeclarationLemmas.DeclareRejectsUnknownOption | lib/labelize.rb:57 | a declaration raises InvalidOption exactly when some option key is not `:as`, and then defines nothing |
| DeclarationLemmas.DeclareWithoutAs | lib/labelize.rb:56-64 | omitting `:as` defines the pair `""` / `"="` on column `"_id"`, not a singular-name default |
| DeclarationLemmas.DeclareDefinesEachLabel | lib/labelize.rb:62-92 | after a successful declaration each label has its getter with the resolved class and its setter (each unless another label of the declaration claims that name), and every other method is kept |
| DeclarationLemmas.LabelsAreIndependent | lib/labelize.rb:72-91 | assigning through one label changes only its own column; another label's column and getter result are unchanged (for any two labels whose setter and getter no other label claims) |
| DeclarationLemmas.DeclaredRoundTrip | lib/labelize.rb:72-91 | through the declared methods, setting an existing row then getting returns that row (for a label whose getter and setter no other label claims) |
| DeclarationLemmas.DeclaredHealing | lib/labelize.rb:73-78 | through the declared getter, a stale id returns nil and clears the column; reading again returns nil and changes nothing (for a label whose getter no other label's setter replaces) |

## Left out

- The `puts` of the label count at `lib/labelize.rb:60`: it is console output and changes nothing.
- The module hook-up at `lib/labelize.rb:25-27` and `lib/labelize.rb:106-108`: these are Ruby mixin plumbing.
- ActiveSupport inflection (`classify.constantize`): modelled as the abstract `registry` map. Irregular plurals are not modelled.
- The database query behind `find`: it is a map lookup. Casting a String id to an Integer key is not modelled. Errors other than `RecordNotFound` are not modelled.
- Saving the healed foreign key: persistence is the host ORM's job.
- Setter edge cases of the Ruby runtime: an Integer outside the `Fixnum` range, assigning `nil`, and an object without `id`. `SetterArg.RawInt` stands for a `Fixnum`, and `SetterArg.Obj` for any object that has an `id`.
- `read_attribute` on a column the record lacks reads as nil, and `write_attribute` adds it. Version-dependent `MissingAttributeError` behaviour is not modelled.
- `blank?` treats the ASCII whitespace characters space, tab, newline, vertical tab, form feed and carriage return as blank. The exact set depends on the ActiveSupport version.
- Declaration.DeclError.InvalidOption carries the set of every unknown key. The message `assert_valid_keys` raises depends on the ActiveSupport version. Older versions name all unknown keys, as this set does. Later ones name only the first unknown key in hash order, which a map cannot express.
- Values in `:as` other than nil, Strings, Symbols and Arrays (an Integer, say) are not modelled.
- The getter's return after healing is taken to be nil, the value `write_attribute` returns.
- DeclarationLemmas.DefineAllGetter: stated only when no label's setter has the getter's name. Otherwise which definition survives depends on the order of the labels; `SetterNameClash` shows both orders on one example, and `DefineAllFrame` and `DefineAllOverwrites` hold in every case.
- DeclarationLemmas.DefineAllSetter: stated only when no label is named like the setter, for the same order-dependence reason.
- DeclarationLemmas.DeclareDefinesEachLabel: each label's getter and setter are stated only when no other label of the declaration claims that name.
- DeclarationLemmas.LabelsAreIndependent: requires only that no other label claims the first label's setter or the second label's getter.
- DeclarationLemmas.DeclaredRoundTrip: requires only that no other label claims the label's getter or setter.
- DeclarationLemmas.DeclaredHealing: requires only that no label's setter replaces the label's getter.
- `Value#to_s` (`RubyValues.ToS`) has no row of its own: its results are stated by `Labels.GetLabels` and `Labels.GetLabelsOfFlatArray`.
- Methods a model defines by other means are not in the method table. `Dispatch` sees only the methods the macro defined.
