/**
 * The categories endpoints. Every category belongs to one user, and every
 * endpoint sees only the current user's rows: a missing id and another
 * user's id both give 404 "Category not found".
 */
module CategoriesApi {
  import opened Wrappers
  import opened Schemas
  import opened Tables

  datatype Category = Category(id: nat, name: string, description: Option<string>, color: Option<string>, userId: nat)

  const CategoryNotFound := HttpError(404, "Category not found")

  /** The row filter `Category.id == id, Category.user_id == owner`. */
  function OwnedCategory(id: int, owner: nat): Category -> bool {
    (c: Category) => c.id == id && c.userId == owner
  }

  /** The `setattr` loop of `update_category`: the name always, the rest when sent. */
  function UpdatedCategory(c: Category, input: CategoryIn): (r: Category)
    ensures r.id == c.id && r.userId == c.userId && r.name == input.name
    ensures input.description.Unset? ==> r.description == c.description
    ensures input.color.Unset? ==> r.color == c.color
    ensures input.description.Given? ==> r.description == input.description.value
    ensures input.color.Given? ==> r.color == input.color.value
  {
    c.(name := input.name, description := Apply(input.description, c.description), color := Apply(input.color, c.color))
  }

  /** Deleting the row at `i` removes exactly the row with that id when ids are unique. */
  lemma DeleteRemovesOnlyThatCategory(rows: seq<Category>, i: nat, c: Category)
    requires i < |rows|
    requires forall a, b :: 0 <= a < b < |rows| ==> rows[a].id != rows[b].id
    ensures c in RemoveAt(rows, i) <==> c in rows && c.id != rows[i].id
  {
    var r := RemoveAt(rows, i);
    if c in r {
      var k :| 0 <= k < |r| && r[k] == c;
      if k < i {
        assert rows[k] == c;
      } else {
        assert rows[k + 1] == c;
      }
    }
    if c in rows && c.id != rows[i].id {
      var k :| 0 <= k < |rows| && rows[k] == c;
      if k < i {
        assert r[k] == c;
      } else {
        assert k != i;
        assert r[k - 1] == c;
      }
    }
  }

  class CategoryTable {
    var rows: seq<Category>
    var nextId: nat

    /** Ids are unique and below the next id the table hands out. */
    ghost predicate Valid()
      reads this
    {
      && (forall i :: 0 <= i < |rows| ==> rows[i].id < nextId)
      && (forall i, j :: 0 <= i < j < |rows| ==> rows[i].id != rows[j].id)
    }

    constructor()
      ensures rows == [] && Valid()
    {
      rows := [];
      nextId := 1;
    }

    /** `create_category`: a new row owned by the current user. */
    method Create(input: CategoryIn, owner: nat) returns (c: Category)
      requires Valid()
      modifies this
      ensures Valid()
      ensures c == Category(old(nextId), input.name, Apply(input.description, None), Apply(input.color, None), owner)
      ensures rows == old(rows) + [c] && nextId == old(nextId) + 1
    {
      c := Category(nextId, input.name, Apply(input.description, None), Apply(input.color, None), owner);
      rows := rows + [c];
      nextId := nextId + 1;
    }

    /** `read_categories`: the current user's rows, then OFFSET `skip`, LIMIT `limit`. */
    function List(owner: nat, skip: nat, limit: nat): (r: seq<Category>)
      reads this
      ensures |r| <= limit
      ensures forall c :: c in r ==> c in rows && c.userId == owner
      ensures var mine := Where(rows, (c: Category) => c.userId == owner);
        && |r| == (if skip >= |mine| then 0 else if |mine| - skip < limit then |mine| - skip else limit)
        && forall i :: 0 <= i < |r| ==> r[i] == mine[skip + i]
    {
      var mine := Where(rows, (c: Category) => c.userId == owner);
      var page := Page(mine, skip, limit);
      assert forall c :: c in page ==> c in mine by {
        forall c | c in page
          ensures c in mine
        {
          var k :| 0 <= k < |page| && page[k] == c;
          assert mine[skip + k] == c;
        }
      }
      page
    }

    /** `read_category` */
    function Read(id: int, owner: nat): (r: Result<Category, HttpError>)
      reads this
      ensures r.Failure? <==> forall c :: c in rows ==> !(c.id == id && c.userId == owner)
      ensures r.Failure? ==> r.error == CategoryNotFound
      ensures r.Success? ==> r.value in rows && r.value.id == id && r.value.userId == owner
    {
      var found := FindFirst(rows, OwnedCategory(id, owner));
      if found.None? then Failure(CategoryNotFound) else Success(rows[found.value])
    }

    /** `update_category`: only the current user's row with that id changes. */
    method Update(id: int, owner: nat, input: CategoryIn) returns (r: Result<Category, HttpError>)
      requires Valid()
      modifies this
      ensures Valid()
      ensures var found := FindFirst(old(rows), OwnedCategory(id, owner));
        && (found.None? ==> r == Failure(CategoryNotFound) && rows == old(rows))
        && (found.Some? ==>
              var c := UpdatedCategory(old(rows)[found.value], input);
              r == Success(c) && rows == old(rows)[found.value := c])
      ensures nextId == old(nextId)
    {
      var found := FindFirst(rows, OwnedCategory(id, owner));
      if found.None? {
        return Failure(CategoryNotFound);
      }
      var c := UpdatedCategory(rows[found.value], input);
      rows := rows[found.value := c];
      r := Success(c);
    }

    /**
     * `delete_category`. `inUse` says whether some expense still points at the
     * category: the delete then nulls that expense's NOT NULL `category_id`,
     * the commit fails and nothing changes.
     */
    method Delete(id: int, owner: nat, inUse: bool) returns (r: Result<(), HttpError>)
      requires Valid()
      modifies this
      ensures Valid()
      ensures var found := FindFirst(old(rows), OwnedCategory(id, owner));
        && (found.None? ==> r == Failure(CategoryNotFound) && rows == old(rows))
        && (found.Some? && inUse ==> r == Failure(InternalError) && rows == old(rows))
        && (found.Some? && !inUse ==> r == Success(()) && rows == RemoveAt(old(rows), found.value))
      ensures nextId == old(nextId)
    {
      var found := FindFirst(rows, OwnedCategory(id, owner));
      if found.None? {
        return Failure(CategoryNotFound);
      }
      if inUse {
        return Failure(InternalError);
      }
      rows := RemoveAt(rows, found.value);
      r := Success(());
    }
  }
}
