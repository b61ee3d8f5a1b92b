/**
 * `GET /category`: the categories the caller can use, that is the global
 * ones and the caller's own, each flagged `custom` when it has an owner.
 */
module FetchCategories {
  import opened Common
  import opened Entities
  import opened Store
  import CreateCategory

  /** A row of the answer: `id, name, type` and the `custom` column. */
  datatype CategoryView = CategoryView(id: int, name: string, kind: CategoryKind, custom: bool)

  /** `WHERE "userId" IS NULL OR "userId" = caller`. */
  predicate Visible(c: Category, userId: Id) {
    c.userId.None? || c.userId == Some(userId)
  }

  /** `CASE WHEN "userId" IS NULL THEN false ELSE true END as custom`. */
  function ViewOf(c: Category): (v: CategoryView)
    ensures v.custom <==> c.userId.Some?
    ensures v.id == c.id && v.name == c.name && v.kind == c.kind
  {
    CategoryView(c.id, c.name, c.kind, c.userId.Some?)
  }

  /** The visible categories in table order: every global category and every one of the caller's own has its row. */
  function VisibleTo(cats: seq<Category>, userId: Id): (r: seq<CategoryView>)
    ensures |r| <= |cats|
    ensures forall c :: c in cats && Visible(c, userId) ==> ViewOf(c) in r
  {
    if cats == [] then []
    else
      var c := cats[|cats| - 1];
      assert cats == cats[..|cats| - 1] + [c];
      VisibleTo(cats[..|cats| - 1], userId) + (if Visible(c, userId) then [ViewOf(c)] else [])
  }

  /** The answer holds a row exactly for each category that is global or the caller's own. */
  lemma {:induction false} VisibleToMembers(cats: seq<Category>, userId: Id)
    ensures forall v :: v in VisibleTo(cats, userId) <==> exists c :: c in cats && Visible(c, userId) && v == ViewOf(c)
    decreases |cats|
  {
    if cats != [] {
      var init, c := cats[..|cats| - 1], cats[|cats| - 1];
      VisibleToMembers(init, userId);
      assert cats == init + [c];
      forall v | exists d :: d in cats && Visible(d, userId) && v == ViewOf(d)
        ensures v in VisibleTo(cats, userId)
      {
        var d :| d in cats && Visible(d, userId) && v == ViewOf(d);
        if d != c {
          assert d in init;
        }
      }
    }
  }

  /** A row is custom exactly when it is one of the caller's own categories. */
  lemma CustomMeansOwn(cats: seq<Category>, userId: Id)
    ensures forall v :: v in VisibleTo(cats, userId) ==>
              (v.custom <==> exists c :: c in cats && c.userId == Some(userId) && v == ViewOf(c))
  {
    VisibleToMembers(cats, userId);
    forall v | v in VisibleTo(cats, userId)
      ensures v.custom <==> exists c :: c in cats && c.userId == Some(userId) && v == ViewOf(c)
    {
      var c :| c in cats && Visible(c, userId) && v == ViewOf(c);
    }
  }

  /** With unique ids, a category owned by another user never appears in the caller's list. */
  lemma OthersNeverListed(cats: seq<Category>, userId: Id, k: nat)
    requires DistinctCategoryIds(cats)
    requires k < |cats| && cats[k].userId.Some? && cats[k].userId != Some(userId)
    ensures ViewOf(cats[k]) !in VisibleTo(cats, userId)
  {
    VisibleToMembers(cats, userId);
    forall c | c in cats && Visible(c, userId) ensures c.id != cats[k].id {
      var j :| 0 <= j < |cats| && cats[j] == c;
      if j != k {
        assert cats[j].id != cats[k].id;
      }
    }
  }

  /** With only global categories, every one of them is listed. */
  lemma {:induction false} GlobalsAllListed(cats: seq<Category>, userId: Id)
    requires forall i :: 0 <= i < |cats| ==> cats[i].userId.None?
    ensures |VisibleTo(cats, userId)| == |cats|
    decreases |cats|
  {
    if cats != [] {
      GlobalsAllListed(cats[..|cats| - 1], userId);
    }
  }

  /** A category the caller creates adds one row to the caller's list and none to anyone else's. */
  lemma ListingAfterCreation(cats: seq<Category>, userId: Id, other: Id, name: string, kind: CategoryKind, newId: int)
    requires CreateCategory.NewCategory(cats, userId, name, kind, newId).0 == Created
    requires other != userId
    ensures var after := CreateCategory.NewCategory(cats, userId, name, kind, newId).1;
            && VisibleTo(after, userId) == VisibleTo(cats, userId) + [ViewOf(after[|cats|])]
            && VisibleTo(after, other) == VisibleTo(cats, other)
            && ViewOf(after[|cats|]).custom
  {
    var after := CreateCategory.NewCategory(cats, userId, name, kind, newId).1;
    assert after[..|cats|] == cats;
  }

  /** The tests' counts: 16 global categories are listed, and 18 once the caller has added an expense and an income category. */
  lemma SixteenThenEighteen(defaults: seq<Category>, userId: Id, id1: int, id2: int)
    requires |defaults| == 16
    requires forall i :: 0 <= i < |defaults| ==> defaults[i].userId.None?
    ensures |VisibleTo(defaults, userId)| == 16
    ensures var first := CreateCategory.NewCategory(defaults, userId, "Sapatos", CatExpense, id1);
            var second := CreateCategory.NewCategory(first.1, userId, "Pagamento", CatIncome, id2);
            first.0 == Created && second.0 == Created && |VisibleTo(second.1, userId)| == 18
  {
    GlobalsAllListed(defaults, userId);
    var first := CreateCategory.NewCategory(defaults, userId, "Sapatos", CatExpense, id1);
    CreateCategory.OnlyOwnCategoriesConflict(defaults, userId, "Sapatos", CatExpense, id1);
    ListingAfterCreation(defaults, userId, userId + "'", "Sapatos", CatExpense, id1);
    assert first.1[16].kind == CatExpense;
    assert CreateCategory.NewCategory(first.1, userId, "Pagamento", CatIncome, id2).0 == Created by {
      forall i | 0 <= i < |first.1|
        ensures !CreateCategory.Clashes(first.1[i], userId, CreateCategory.Normalise("Pagamento"), CatIncome)
      {
        if i < 16 {
          assert first.1[i] == defaults[i];
        }
      }
    }
    ListingAfterCreation(first.1, userId, userId + "'", "Pagamento", CatIncome, id2);
  }

  /** The handler: every caller gets an answer, 200. */
  function FetchCategories(s: Snapshot, userId: Id): (r: Reply<seq<CategoryView>>)
    ensures r.Success?
    ensures forall v :: v in r.value <==> exists c :: c in s.categories && Visible(c, userId) && v == ViewOf(c)
  {
    VisibleToMembers(s.categories, userId);
    Success(VisibleTo(s.categories, userId))
  }
}
