/**
 * The category list, kept under the storage key "PinGPTChat-categories":
 * the self-healing default category, the id a new category receives, and
 * removal by id.
 */
module Categories {
  import opened Sequences
  import opened Text

  /** A category a chat can be filed under. */
  datatype Category = Category(id: string, name: string, isDefault: bool)

  /** The record every read of the list re-creates when no category is named "Important". */
  const DefaultCategory: Category := Category("important", "Important", true)

  /** The test both readers of the list apply: some category is named "Important". */
  predicate HasImportant(cats: seq<Category>)
  {
    exists c :: c in cats && c.name == "Important"
  }

  /** Some category carries `id`. */
  predicate HasCategoryId(cats: seq<Category>, id: string)
  {
    exists c :: c in cats && c.id == id
  }

  /**
   * The self-heal of `getCategories` and `loadCategories`: the default
   * record is put in front when no category is named "Important"; the list
   * is left as it is otherwise.
   */
  function Heal(cats: seq<Category>): (r: seq<Category>)
    ensures HasImportant(r)
    ensures HasImportant(cats) ==> r == cats
    ensures !HasImportant(cats) ==> |r| == |cats| + 1 && r[0] == DefaultCategory && r[1..] == cats
  {
    if HasImportant(cats) then cats
    else
      var r := [DefaultCategory] + cats;
      assert DefaultCategory in r;
      assert r[1..] == cats;
      r
  }

  /** The id `category_${Date.now()}` for the clock reading `now`. */
  function CategoryId(now: nat): (r: string)
    ensures r != DefaultCategory.id
    ensures |r| > 9 && r[..9] == "category_"
  {
    "category_" + Decimal(now)
  }

  /** A category created at clock reading `now`: never the default. */
  function NewCategory(name: string, now: nat): (c: Category)
    ensures c.name == name && !c.isDefault
    ensures c.id != DefaultCategory.id
  {
    Category(CategoryId(now), name, false)
  }

  /** The filter test `deleteCategory` applies: the category does not carry `id`. */
  function CategoryIdIsNot(id: string): Category -> bool
  {
    (c: Category) => c.id != id
  }

  /** `deleteCategory` on the list: drop every category that carries `id`, keep the rest in order. */
  function RemoveCategory(cats: seq<Category>, id: string): (r: seq<Category>)
    ensures forall c :: c in r <==> c in cats && c.id != id
    ensures forall c :: multiset(r)[c] == if c.id != id then multiset(cats)[c] else 0
    ensures !HasCategoryId(r, id)
    ensures IsSubsequence(r, cats)
  {
    FilterIsSubsequence(cats, CategoryIdIsNot(id));
    assert forall c :: multiset(Filter(cats, CategoryIdIsNot(id)))[c] == if c.id != id then multiset(cats)[c] else 0 by {
      forall c {
        FilterCount(cats, CategoryIdIsNot(id), c);
      }
    }
    Filter(cats, CategoryIdIsNot(id))
  }

  /** Reading the list twice heals it once: the second read changes nothing. */
  lemma HealIdempotent(cats: seq<Category>)
    ensures Heal(Heal(cats)) == Heal(cats)
  {
  }

  /** Timestamps that differ give ids that differ. */
  lemma CategoryIdInjective(a: nat, b: nat)
    requires CategoryId(a) == CategoryId(b)
    ensures a == b
  {
    assert CategoryId(a)[9..] == Decimal(a);
    assert CategoryId(b)[9..] == Decimal(b);
    DecimalInjective(a, b);
  }

  /**
   * `createCategory`: the healed list gains exactly one record, at the end,
   * not the default one and named as asked; the default category survives.
   */
  lemma CreateAppendsOne(cats: seq<Category>, name: string, now: nat)
    ensures var r := Heal(cats) + [NewCategory(name, now)];
      && |r| == |Heal(cats)| + 1
      && r[|r| - 1].name == name && !r[|r| - 1].isDefault
      && r[..|r| - 1] == Heal(cats)
      && HasImportant(r)
      && (forall c :: c in r && c.isDefault ==> c in Heal(cats))
  {
    var h := Heal(cats);
    var r := h + [NewCategory(name, now)];
    assert r[..|r| - 1] == h;
    var w :| w in h && w.name == "Important";
    assert w in r;
  }

  /**
   * A created category's id is not among the ids present, provided the
   * clock reading is newer than every timestamped id already in the list.
   */
  lemma CreatedIdIsFresh(cats: seq<Category>, now: nat)
    requires forall c, t: nat :: c in cats && c.id == CategoryId(t) ==> t < now
    ensures !HasCategoryId(Heal(cats), CategoryId(now))
  {
    forall c | c in Heal(cats) ensures c.id != CategoryId(now) {
      if c in cats {
        assert c.id == CategoryId(now) ==> now < now;
      }
    }
  }

  /**
   * The list is only healed by name: a user who creates a second category
   * named "Important" keeps both, since healing only adds the default when
   * no category has that name.
   */
  lemma SecondImportantIsKept(cats: seq<Category>, now: nat)
    ensures var r := Heal(cats) + [NewCategory("Important", now)];
      exists i, j :: 0 <= i < j < |r| && r[i].name == "Important" && r[j].name == "Important"
  {
    var h := Heal(cats);
    var r := h + [NewCategory("Important", now)];
    var w :| w in h && w.name == "Important";
    var i :| 0 <= i < |h| && h[i] == w;
    assert r[i] == w && r[|r| - 1].name == "Important";
  }

  /**
   * Deleting a category and reading the list back: the default category is
   * always there again, and any other deleted id stays gone.
   */
  lemma DeleteThenHeal(cats: seq<Category>, id: string)
    ensures HasImportant(Heal(RemoveCategory(cats, id)))
    ensures id != DefaultCategory.id ==> !HasCategoryId(Heal(RemoveCategory(cats, id)), id)
    ensures (forall c :: c in cats && c.name == "Important" ==> c.id == id)
      ==> Heal(RemoveCategory(cats, id))[0] == DefaultCategory
  {
    var rest := RemoveCategory(cats, id);
    if forall c :: c in cats && c.name == "Important" ==> c.id == id {
      assert !HasImportant(rest);
    }
  }
}
