/** The bodies of the generated label accessors: a getter that dereferences the
    foreign-key column `<label>_id` and heals it when the target row is gone,
    and a setter that stores a raw id or an object's id in that column. */
module Accessors {
  import opened RubyValues

  /** The value held in a foreign-key column. */
  datatype FkValue = Null | IntId(n: int) | StrId(s: string)

  /** A row of the target model, found by its primary key. */
  datatype Target = Target(id: FkValue, attributes: map<string, FkValue>)

  /** The target model's rows, indexed by the id `find` is given. */
  type Table = map<FkValue, Target>

  /** Every row is stored under its own id. */
  ghost predicate WellKeyed(table: Table)
  {
    forall k :: k in table ==> table[k].id == k
  }

  /** What the setter can be given: a raw Integer or String id, or any other
      object, of which only its `id` is used. */
  datatype SetterArg = RawInt(n: int) | RawStr(s: string) | Obj(id: FkValue)

  /** The whitespace characters `blank?` ignores. */
  predicate IsSpace(c: char)
  {
    c == ' ' || c == '\t' || c == '\n' || c == '\U{0B}' || c == '\U{0C}' || c == '\r'
  }

  /** `blank?`: nil, or a String made only of whitespace (the empty String
      included); an Integer is never blank. */
  predicate Blank(v: FkValue)
    ensures Blank(v) ==> v == Null || v.StrId?
    ensures v == StrId("") ==> Blank(v)
  {
    match v
    case Null => true
    case IntId(_) => false
    case StrId(s) => forall i :: 0 <= i < |s| ==> IsSpace(s[i])
  }

  /** `read_attribute`: a column the record does not hold reads as nil. */
  function ReadAttribute(attributes: map<string, FkValue>, column: string): (v: FkValue)
    ensures column !in attributes ==> Blank(v)
    ensures !Blank(v) ==> column in attributes && attributes[column] == v
  {
    if column in attributes then attributes[column] else Null
  }

  /** The id the setter writes for its argument. */
  function StoredId(arg: SetterArg): (id: FkValue)
    ensures arg.Obj? ==> id == arg.id
    ensures !arg.Obj? ==> id != Null
  {
    match arg
    case RawInt(n) => IntId(n)
    case RawStr(s) => StrId(s)
    case Obj(id) => id
  }

  /** The getter's return value and the record's attributes after the call. */
  datatype GetResult = GetResult(value: Option<Target>, attributes: map<string, FkValue>)

  /** The generated getter, as a function of the record's attributes. */
  function Get(attributes: map<string, FkValue>, column: string, table: Table): (r: GetResult)
    ensures r.value.Some? ==>
      ReadAttribute(attributes, column) in table && r.value.value == table[ReadAttribute(attributes, column)]
    ensures r.value.None? ==> Blank(ReadAttribute(r.attributes, column))
    ensures r.attributes.Keys == attributes.Keys
    ensures forall c :: c != column ==> ReadAttribute(r.attributes, c) == ReadAttribute(attributes, c)
  {
    var id := ReadAttribute(attributes, column);
    if Blank(id) then GetResult(None, attributes)
    else if id in table then GetResult(Some(table[id]), attributes)
    else GetResult(None, attributes[column := Null])
  }

  /** The generated setter, as a function of the record's attributes. */
  function Set(attributes: map<string, FkValue>, column: string, arg: SetterArg): (r: map<string, FkValue>)
    ensures ReadAttribute(r, column) == StoredId(arg)
    ensures r.Keys == attributes.Keys + {column}
    ensures forall c :: c != column ==> ReadAttribute(r, c) == ReadAttribute(attributes, c)
  {
    attributes[column := StoredId(arg)]
  }

  /** A record of the declaring model, with its attribute storage. */
  class Record {
    var attributes: map<string, FkValue>

    constructor (attributes: map<string, FkValue>)
      ensures this.attributes == attributes
    {
      this.attributes := attributes;
    }

    /** Body of the generated getter `<label>`, reading `column` = "<label>_id"
        and looking the id up in the target model's table. */
    method GetLabel(column: string, table: Table) returns (target: Option<Target>)
      modifies this
      ensures GetResult(target, attributes) == Get(old(attributes), column, table)
    {
      var id := ReadAttribute(attributes, column);
      if !Blank(id) {
        if id in table {
          target := Some(table[id]);
        } else {
          // RecordNotFound: the stale key is cleared in memory and nil returned
          attributes := attributes[column := Null];
          target := None;
        }
      } else {
        target := None;
      }
    }

    /** Body of the generated setter `<label>=`. */
    method SetLabel(column: string, arg: SetterArg)
      modifies this
      ensures attributes == Set(old(attributes), column, arg)
    {
      match arg
      case RawInt(n) => attributes := attributes[column := IntId(n)];
      case RawStr(s) => attributes := attributes[column := StrId(s)];
      case Obj(id) => attributes := attributes[column := id];
    }
  }

  /** A blank id returns nil without a lookup and leaves the record as it was. */
  lemma GetOnBlank(attributes: map<string, FkValue>, column: string, table: Table)
    requires Blank(ReadAttribute(attributes, column))
    ensures Get(attributes, column, table) == GetResult(None, attributes)
  {
  }

  /** An id that resolves returns its row and leaves the record as it was. */
  lemma GetOnLiveId(attributes: map<string, FkValue>, column: string, table: Table)
    requires !Blank(ReadAttribute(attributes, column))
    requires ReadAttribute(attributes, column) in table
    ensures Get(attributes, column, table) == GetResult(Some(table[attributes[column]]), attributes)
  {
  }

  /** An id that no longer resolves is overwritten with nil, nil is returned,
      and a second call then takes the blank path and changes nothing. */
  lemma GetHealsStaleId(attributes: map<string, FkValue>, column: string, table: Table)
    requires !Blank(ReadAttribute(attributes, column))
    requires ReadAttribute(attributes, column) !in table
    ensures Get(attributes, column, table) == GetResult(None, attributes[column := Null])
    ensures Get(attributes[column := Null], column, table) == GetResult(None, attributes[column := Null])
  {
  }

  /** Calling the getter twice is the same as calling it once. */
  lemma GetIdempotent(attributes: map<string, FkValue>, column: string, table: Table)
    ensures var first := Get(attributes, column, table);
            Get(first.attributes, column, table) == first
  {
  }

  /** After the getter, the column is blank or names an existing row: no
      dangling id survives a read. */
  lemma GetLeavesNoDanglingId(attributes: map<string, FkValue>, column: string, table: Table)
    ensures var id := ReadAttribute(Get(attributes, column, table).attributes, column);
            Blank(id) || id in table
  {
  }

  lemma WellKeyedLookup(table: Table, t: Target)
    requires WellKeyed(table)
    requires t in table.Values
    ensures t.id in table && table[t.id] == t
  {
    var k :| k in table && table[k] == t;
  }

  /** Assigning an existing row and reading the label back returns that row,
      whether the setter was given the row itself or its raw id. */
  lemma SetThenGet(attributes: map<string, FkValue>, column: string, table: Table, t: Target, arg: SetterArg)
    requires WellKeyed(table)
    requires t in table.Values && !Blank(t.id)
    requires StoredId(arg) == t.id
    ensures Get(Set(attributes, column, arg), column, table) == GetResult(Some(t), Set(attributes, column, arg))
  {
    WellKeyedLookup(table, t);
  }
}
