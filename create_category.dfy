/**
 * `POST /category`: create a category of the caller's own. The name is
 * normalised to a capital first letter and lower-case rest before it is
 * stored or compared, so names that differ only in case collide.
 */
module CreateCategory {
  import opened Common
  import opened Entities
  import opened Store

  /*
   * Case mapping of `toUpperCase` / `toLowerCase` restricted to the letters
   * of Latin-1: A-Z and the accented capitals U+00C0-U+00DE (but U+00D7,
   * the multiplication sign) against their small forms 32 code points on.
   */

  predicate IsSmall(c: char) {
    ('a' <= c <= 'z') || ('\U{00E0}' <= c <= '\U{00FE}' && c != '\U{00F7}')
  }

  predicate IsCapital(c: char) {
    ('A' <= c <= 'Z') || ('\U{00C0}' <= c <= '\U{00DE}' && c != '\U{00D7}')
  }

  function ToUpper(c: char): (r: char)
    ensures !IsSmall(r)
    ensures IsSmall(c) ==> IsCapital(r) && r as int == c as int - 32
    ensures !IsSmall(c) ==> r == c
  {
    if IsSmall(c) then (c as int - 32) as char else c
  }

  function ToLower(c: char): (r: char)
    ensures !IsCapital(r)
    ensures IsCapital(c) ==> IsSmall(r) && r as int == c as int + 32
    ensures !IsCapital(c) ==> r == c
  {
    if IsCapital(c) then (c as int + 32) as char else c
  }

  /** Two characters are the same letter exactly when their small forms agree, and then so do their capitals. */
  lemma SameLetter(c: char, d: char)
    ensures ToLower(c) == ToLower(d) <==> ToUpper(c) == ToUpper(d)
  {
  }

  /** `val.slice(1).toLowerCase()` on the rest of the name. */
  function LowerAll(s: string): (r: string)
    ensures |r| == |s|
    ensures forall i :: 0 <= i < |s| ==> r[i] == ToLower(s[i])
  {
    seq(|s|, i requires 0 <= i < |s| => ToLower(s[i]))
  }

  /** The `name` transform: the first character upper-cased, the rest lower-cased; "" stays "". */
  function Normalise(name: string): (r: string)
    ensures |r| == |name|
    ensures forall i :: 0 <= i < |name| ==> r[i] == if i == 0 then ToUpper(name[0]) else ToLower(name[i])
  {
    if name == [] then [] else [ToUpper(name[0])] + LowerAll(name[1..])
  }

  /** A name in stored form: no small letter first, no capital after. */
  predicate IsNormalised(name: string) {
    (|name| > 0 ==> !IsSmall(name[0])) && forall i :: 1 <= i < |name| ==> !IsCapital(name[i])
  }

  /** Two names that differ at most in the case of their letters. */
  predicate SameUpToCase(a: string, b: string) {
    |a| == |b| && forall i :: 0 <= i < |a| ==> ToLower(a[i]) == ToLower(b[i])
  }

  /** Every result of the transform is in stored form, and names in stored form are left as they are. */
  lemma NormalisedForm(name: string)
    ensures IsNormalised(Normalise(name))
    ensures Normalise(name) == name <==> IsNormalised(name)
  {
    var r := Normalise(name);
    if IsNormalised(name) {
      assert forall i :: 0 <= i < |name| ==> r[i] == name[i];
    }
  }

  /** Normalising twice is normalising once. */
  lemma NormaliseIdempotent(name: string)
    ensures Normalise(Normalise(name)) == Normalise(name)
  {
    NormalisedForm(name);
    NormalisedForm(Normalise(name));
  }

  /** Two names normalise to the same stored name exactly when they differ only in case. */
  lemma NormaliseIgnoresCase(a: string, b: string)
    ensures Normalise(a) == Normalise(b) <==> SameUpToCase(a, b)
  {
    var na, nb := Normalise(a), Normalise(b);
    if |a| == |b| {
      forall i | 0 <= i < |a| ensures na[i] == nb[i] <==> ToLower(a[i]) == ToLower(b[i]) {
        SameLetter(a[i], b[i]);
      }
      if SameUpToCase(a, b) {
        assert forall i :: 0 <= i < |a| ==> na[i] == nb[i];
      }
    }
  }

  /** A name in stored form that differs from the request's name only in case is what gets stored. */
  lemma StoredAs(name: string, stored: string)
    requires IsNormalised(stored) && SameUpToCase(name, stored)
    ensures Normalise(name) == stored
  {
    NormalisedForm(stored);
    NormaliseIgnoresCase(name, stored);
  }

  /** 'Gasolina' is in stored form. */
  lemma GasolinaIsNormalised()
    ensures IsNormalised("Gasolina")
  {
    assert "Gasolina"[1..] == "asolina";
  }

  /** The test's 'gasolina' is stored as 'Gasolina'. */
  lemma GasolinaExample()
    ensures Normalise("gasolina") == "Gasolina"
  {
    GasolinaIsNormalised();
    assert ToLower('G') == 'g';
    StoredAs("gasolina", "Gasolina");
  }

  /** 'Sapatos' is in stored form. */
  lemma SapatosIsNormalised()
    ensures IsNormalised("Sapatos")
  {
    assert "Sapatos"[1..] == "apatos";
  }

  /** 'SAPATOS' and 'Sapatos' differ only in case. */
  lemma SapatosSameUpToCase()
    ensures SameUpToCase("SAPATOS", "Sapatos")
  {
    assert ToLower('S') == 's' && ToLower('A') == 'a' && ToLower('P') == 'p';
    assert ToLower('T') == 't' && ToLower('O') == 'o';
  }

  /** 'SAPATOS' and 'Sapatos' are both stored as 'Sapatos'. */
  lemma SapatosExample()
    ensures Normalise("SAPATOS") == Normalise("Sapatos") == "Sapatos"
  {
    SapatosIsNormalised();
    SapatosSameUpToCase();
    StoredAs("SAPATOS", "Sapatos");
    StoredAs("Sapatos", "Sapatos");
  }

  /** 'Alimentação' is in stored form. */
  lemma AccentedIsNormalised()
    ensures IsNormalised("Alimentação")
  {
    assert "Alimentação"[1..] == "limentação";
  }

  /** 'ALIMENTAÇÃO' and 'Alimentação' differ only in case. */
  lemma AccentedSameUpToCase()
    ensures SameUpToCase("ALIMENTAÇÃO", "Alimentação")
  {
    assert ToLower('\U{00C7}') == '\U{00E7}' && ToLower('\U{00C3}') == '\U{00E3}';
  }

  /** Accented capitals are lower-cased as well: 'ALIMENTAÇÃO' is stored as 'Alimentação'. */
  lemma AccentedExample()
    ensures Normalise("ALIMENTAÇÃO") == "Alimentação"
  {
    AccentedIsNormalised();
    AccentedSameUpToCase();
    StoredAs("ALIMENTAÇÃO", "Alimentação");
  }

  /** The kinds the request body accepts (`z.enum(['EXPENSE', 'INCOME'])`). */
  predicate Creatable(kind: CategoryKind) {
    kind == CatExpense || kind == CatIncome
  }

  /** `findFirst({ where: { userId, name, type } })`: the caller's own category with that stored name and type. */
  predicate Clashes(c: Category, userId: Id, name: string, kind: CategoryKind) {
    c.userId == Some(userId) && c.name == name && c.kind == kind
  }

  function FindClash(cats: seq<Category>, userId: Id, name: string, kind: CategoryKind): (r: Option<nat>)
    ensures r.Some? ==> r.value < |cats| && Clashes(cats[r.value], userId, name, kind)
    ensures r.None? <==> forall i :: 0 <= i < |cats| ==> !Clashes(cats[i], userId, name, kind)
  {
    FindFirst(cats, (c: Category) => Clashes(c, userId, name, kind))
  }

  /** The status and the categories table after the request. */
  function NewCategory(cats: seq<Category>, userId: Id, name: string, kind: CategoryKind, newId: int)
    : (r: (nat, seq<Category>))
    ensures r.0 in {Created, BadRequest, Conflict}
    ensures r.0 == BadRequest <==> !Creatable(kind)
    ensures r.0 == Conflict <==>
              Creatable(kind) && exists i :: 0 <= i < |cats| && Clashes(cats[i], userId, Normalise(name), kind)
    ensures r.0 != Created ==> r.1 == cats
    ensures r.0 == Created ==> r.1 == cats + [Category(newId, Some(userId), Normalise(name), kind)]
  {
    if !Creatable(kind) then (BadRequest, cats)
    else
      var stored := Normalise(name);
      match FindClash(cats, userId, stored, kind)
      case Some(_) => (Conflict, cats)
      case None => (Created, cats + [Category(newId, Some(userId), stored, kind)])
  }

  /** Creating categories keeps ids unique and never stores a second (owner, name, type). */
  lemma CreationKeepsCategoriesValid(cats: seq<Category>, userId: Id, name: string, kind: CategoryKind, newId: int)
    requires DistinctCategoryIds(cats) && NoOwnedDuplicates(cats)
    requires forall c :: c in cats ==> c.id != newId
    ensures DistinctCategoryIds(NewCategory(cats, userId, name, kind, newId).1)
    ensures NoOwnedDuplicates(NewCategory(cats, userId, name, kind, newId).1)
  {
    var r := NewCategory(cats, userId, name, kind, newId);
    if r.0 == Created {
      var n := |cats|;
      forall i, j | 0 <= i < j < |r.1| ensures r.1[i].id != r.1[j].id {
        if j == n {
          assert r.1[i] == cats[i];
        }
      }
      forall i, j | 0 <= i < j < |r.1| && r.1[i].userId.Some?
        ensures !(r.1[i].userId == r.1[j].userId && r.1[i].name == r.1[j].name && r.1[i].kind == r.1[j].kind)
      {
        if j == n {
          assert r.1[i] == cats[i];
          assert !Clashes(cats[i], userId, Normalise(name), kind);
        }
      }
    }
  }

  /** Once a name is stored, the same name in any other case is refused for that user and type. */
  lemma CaseVariantConflicts(cats: seq<Category>, userId: Id, a: string, b: string, kind: CategoryKind, id1: int, id2: int)
    requires NewCategory(cats, userId, a, kind, id1).0 == Created
    requires SameUpToCase(a, b)
    ensures NewCategory(NewCategory(cats, userId, a, kind, id1).1, userId, b, kind, id2) == (Conflict, NewCategory(cats, userId, a, kind, id1).1)
  {
    var after := NewCategory(cats, userId, a, kind, id1).1;
    NormaliseIgnoresCase(a, b);
    assert Clashes(after[|cats|], userId, Normalise(b), kind);
  }

  /** Global categories and other users' categories never make the caller's request conflict. */
  lemma OnlyOwnCategoriesConflict(cats: seq<Category>, userId: Id, name: string, kind: CategoryKind, newId: int)
    requires Creatable(kind)
    requires forall i :: 0 <= i < |cats| ==> cats[i].userId != Some(userId)
    ensures NewCategory(cats, userId, name, kind, newId).0 == Created
  {
  }

  /** The test's sequence: 'Sapatos' is created, then 'SAPATOS' of the same type answers 409. */
  lemma SapatosScenario(cats: seq<Category>, userId: Id, id1: int, id2: int)
    requires forall i :: 0 <= i < |cats| ==> cats[i].userId != Some(userId)
    ensures var first := NewCategory(cats, userId, "Sapatos", CatExpense, id1);
            && first.0 == Created
            && first.1[|cats|].name == "Sapatos"
            && NewCategory(first.1, userId, "SAPATOS", CatExpense, id2).0 == Conflict
  {
    OnlyOwnCategoriesConflict(cats, userId, "Sapatos", CatExpense, id1);
    SapatosExample();
    CaseVariantConflicts(cats, userId, "Sapatos", "SAPATOS", CatExpense, id1, id2);
  }

  /** The handler on the store; `newId` stands for the autoincrement id. */
  method CreateCategory(db: Ledger, userId: Id, name: string, kind: CategoryKind, newId: int) returns (status: nat)
    requires db.Valid()
    requires forall c :: c in db.categories ==> c.id != newId
    modifies db
    ensures db.Valid()
    ensures (status, db.categories) == NewCategory(old(db.categories), userId, name, kind, newId)
    ensures db.State() == old(db.State()).(categories := db.categories)
  {
    if !Creatable(kind) {
      return BadRequest;
    }
    var stored := Normalise(name);
    var existing := FindClash(db.categories, userId, stored, kind);
    if existing.Some? {
      return Conflict;
    }
    CreationKeepsCategoriesValid(db.categories, userId, name, kind, newId);
    db.categories := db.categories + [Category(newId, Some(userId), stored, kind)];
    status := Created;
  }
}
