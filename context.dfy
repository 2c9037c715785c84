/** The context store: a map from a value type's identity to one shared,
    mutable cell holding a value of that type. Type identity is a finite tag;
    each shared cell is a heap object, so handles alias exactly when they are
    the same object. */
module ContextStore {
  import opened Outcomes

  /** The `expect` message of get_context. */
  const NOT_CREATED := "Context not created"
  /** What a cell's exclusive borrow fails with while another one is held. */
  const ALREADY_BORROWED := "already borrowed"
  /** What a cell's shared borrow fails with while an exclusive one is held. */
  const ALREADY_MUTABLY_BORROWED := "already mutably borrowed"

  newtype I64 = x: int | -0x8000_0000_0000_0000 <= x < 0x8000_0000_0000_0000
  newtype I8 = x: int | -0x80 <= x < 0x80

  /** The identity of a value type (its TypeId), for the types the model stores. */
  datatype TypeTag = I64Type | I8Type

  /** A value of one of those types. */
  datatype Value = Int64(n: I64) | Int8(b: I8)

  /** `type_id` of a value. */
  function TypeOf(v: Value): TypeTag {
    match v
    case Int64(_) => I64Type
    case Int8(_) => I8Type
  }

  /** A shared mutable cell. `borrowedMut` says that an exclusive borrow guard
      is outstanding; shared borrows are taken only for the read that needs them. */
  class Cell {
    const tag: TypeTag
    var value: Value
    var borrowedMut: bool

    /** The cell holds a value of its own type. */
    ghost predicate Valid()
      reads this
    {
      TypeOf(value) == tag
    }

    constructor (v: Value)
      ensures tag == TypeOf(v) && value == v && !borrowedMut
      ensures Valid()
    {
      tag := TypeOf(v);
      value := v;
      borrowedMut := false;
    }

    /** `*cell.borrow()`: read through a shared borrow that ends at once. */
    method Read() returns (r: Outcome<Value>)
      ensures borrowedMut ==> r == Panic(ALREADY_MUTABLY_BORROWED)
      ensures !borrowedMut ==> r.Ok? && r.value == value
      ensures Valid() && r.Ok? ==> TypeOf(r.value) == tag
    {
      if borrowedMut {
        r := Panic(ALREADY_MUTABLY_BORROWED);
      } else {
        r := Ok(value);
      }
    }

    /** `*cell.borrow_mut() = v`: write through an exclusive borrow that ends at once. */
    method Write(v: Value) returns (r: Outcome<()>)
      requires TypeOf(v) == tag
      modifies this
      ensures borrowedMut == old(borrowedMut)
      ensures old(borrowedMut) ==> r == Panic(ALREADY_BORROWED) && value == old(value)
      ensures !old(borrowedMut) ==> r == Ok(()) && value == v
      ensures old(Valid()) ==> Valid()
    {
      if borrowedMut {
        r := Panic(ALREADY_BORROWED);
      } else {
        value := v;
        r := Ok(());
      }
    }

    /** `cell.borrow_mut()` kept in a variable: take the exclusive guard. */
    method BorrowMut() returns (r: Outcome<()>)
      modifies this
      ensures value == old(value) && borrowedMut
      ensures r == if old(borrowedMut) then Panic(ALREADY_BORROWED) else Ok(())
    {
      if borrowedMut {
        r := Panic(ALREADY_BORROWED);
      } else {
        borrowedMut := true;
        r := Ok(());
      }
    }

    /** `*guard = v` through the held exclusive guard. */
    method WriteGuarded(v: Value)
      requires borrowedMut && TypeOf(v) == tag
      modifies this
      ensures value == v && borrowedMut
    {
      value := v;
    }

    /** The exclusive guard goes out of scope. */
    method ReleaseMut()
      requires borrowedMut
      modifies this
      ensures value == old(value) && !borrowedMut
    {
      borrowedMut := false;
    }
  }

  /** The store: at most one cell per type. */
  class Context {
    var entries: map<TypeTag, Cell>

    /** Each cell sits under its own type, so cells of distinct types are distinct. */
    ghost predicate Valid()
      reads this
    {
      forall t | t in entries :: entries[t].tag == t
    }

    constructor ()
      ensures Valid() && entries == map[]
      ensures forall t :: !IsContextExists(t)
    {
      entries := map[];
    }

    /** create_context: install a brand-new cell holding `v` under `v`'s type,
        replacing any cell that type had; other types keep their cells. */
    method CreateContext(v: Value)
      requires Valid()
      modifies this
      ensures Valid()
      ensures IsContextExists(TypeOf(v))
      ensures fresh(entries[TypeOf(v)])
      ensures entries[TypeOf(v)].value == v && !entries[TypeOf(v)].borrowedMut
      ensures forall t | t != TypeOf(v) :: t in entries <==> t in old(entries)
      ensures forall t | t != TypeOf(v) && t in old(entries) :: entries[t] == old(entries)[t]
    {
      var cell := new Cell(v);
      entries := entries[TypeOf(v) := cell];
    }

    /** get_context: the shared handle to `t`'s cell, or a panic when `t` has none. */
    function GetContext(t: TypeTag): (r: Outcome<Cell>)
      reads this
      ensures r.Ok? <==> t in entries
      ensures r.Ok? ==> r.value == entries[t]
      ensures r.Ok? && Valid() ==> r.value.tag == t
      ensures r.Panic? ==> r.message == NOT_CREATED
    {
      if t in entries then Ok(entries[t]) else Panic(NOT_CREATED)
    }

    /** is_context_exists: exactly when get_context would not panic. */
    function IsContextExists(t: TypeTag): (b: bool)
      reads this
      ensures b <==> GetContext(t).Ok?
    {
      t in entries
    }
  }

  /** Cells under distinct types are distinct objects, so an exclusive guard on
      one type's cell leaves every other type's cell free. */
  lemma CellsOfDistinctTypesAreDistinct(c: Context, t1: TypeTag, t2: TypeTag)
    requires c.Valid() && t1 in c.entries && t2 in c.entries && t1 != t2
    ensures c.entries[t1] != c.entries[t2]
  {
    assert c.entries[t1].tag == t1 && c.entries[t2].tag == t2;
  }

  /** The store's own test: create, read, write through a handle, and read one
      type's cell while another type's cell is exclusively borrowed. */
  method ContextScenario() {
    var context := new Context();
    assert !context.IsContextExists(I64Type);
    context.CreateContext(Int64(12));
    assert context.IsContextExists(I64Type);
    context.CreateContext(Int8(1));
    var val := context.GetContext(I64Type).value;
    var read := val.Read();
    assert read == Ok(Int64(12));
    var written := val.Write(Int64(read.value.n + 12));
    read := val.Read();
    assert read == Ok(Int64(24));
    var valI8 := context.GetContext(I8Type).value;
    var guard := valI8.BorrowMut();
    assert guard.Ok?;
    var val2 := context.GetContext(I64Type).value;
    assert val2 == val;
    read := val2.Read();
    assert read == Ok(Int64(24));
    valI8.WriteGuarded(Int8(12));
    valI8.ReleaseMut();
  }

  /** Re-creating a type's context leaves a handle taken before it on the old cell. */
  method ReplacedHandleScenario() {
    var context := new Context();
    context.CreateContext(Int64(1));
    var before := context.GetContext(I64Type).value;
    context.CreateContext(Int64(2));
    var after := context.GetContext(I64Type).value;
    assert before != after;
    var read := before.Read();
    assert read == Ok(Int64(1));
    read := after.Read();
    assert read == Ok(Int64(2));
  }
}
