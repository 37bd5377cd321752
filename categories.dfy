/**
 * ProjectCategoryService: a tree of project categories with unique names
 * (ignoring case), the ancestor walk that keeps the parent relation free of
 * cycles, and the guards on deletion.
 */
module Categories {
  import opened Domain

  type CategoryId = Uuid

  /** A ProjectCategory row; `parent` is the nullable parent_category_id. */
  datatype Category = Category(name: string, description: string, parent: Option<CategoryId>)

  datatype CategoryRequest = CategoryRequest(name: string, description: string, parentId: Option<CategoryId>)

  // ---------------------------------------------------------------------
  // Names, compared ignoring case
  // ---------------------------------------------------------------------

  /**
   * Two names are equal ignoring case. The comparison of
   * existsByNameIgnoreCase runs in the database, which upper-cases both
   * sides under its own collation; that folding is the parameter `upper`.
   */
  predicate SameNameIgnoringCase(a: string, b: string, upper: string -> string)
  {
    upper(a) == upper(b)
  }

  /** existsByNameIgnoreCase. */
  predicate NameTaken(categories: map<CategoryId, Category>, name: string, upper: string -> string)
  {
    exists id :: id in categories && SameNameIgnoringCase(categories[id].name, name, upper)
  }

  /** No two stored categories have the same name ignoring case. */
  ghost predicate NamesUnique(categories: map<CategoryId, Category>, upper: string -> string)
  {
    forall a, b :: a in categories && b in categories && a != b ==>
      !SameNameIgnoringCase(categories[a].name, categories[b].name, upper)
  }

  /** validateCategoryName: a name already used ignoring case is rejected. */
  function ValidateCategoryName(categories: map<CategoryId, Category>, name: string, upper: string -> string): (r: Outcome)
    ensures r.Pass? <==> forall id :: id in categories ==> !SameNameIgnoringCase(categories[id].name, name, upper)
    ensures r.Fail? ==> r.error == Validation("Category with this name already exists")
  {
    if NameTaken(categories, name, upper) then Fail(Validation("Category with this name already exists")) else Pass
  }

  /**
   * The name check of updateCategory: it runs only when the new name differs
   * from the stored one by exact comparison.
   */
  function ValidateRename(categories: map<CategoryId, Category>, id: CategoryId, name: string, upper: string -> string): (r: Outcome)
    requires id in categories
    ensures categories[id].name == name ==> r.Pass?
    ensures categories[id].name != name ==> r == ValidateCategoryName(categories, name, upper)
  {
    if categories[id].name != name then ValidateCategoryName(categories, name, upper) else Pass
  }

  /**
   * Because the stored category itself takes part in the ignore-case check,
   * renaming a category to a different-case spelling of its own name is
   * rejected, while keeping the exact name is accepted.
   */
  lemma RenameToCaseVariantRejected(categories: map<CategoryId, Category>, id: CategoryId, name: string, upper: string -> string)
    requires id in categories
    requires categories[id].name != name && SameNameIgnoringCase(categories[id].name, name, upper)
    ensures ValidateRename(categories, id, name, upper) == Fail(Validation("Category with this name already exists"))
  {
    assert NameTaken(categories, name, upper);
  }

  /**
   * A rename that passes its check keeps the stored names unique ignoring
   * case, whatever the folding.
   */
  lemma RenameKeepsNamesUnique(categories: map<CategoryId, Category>, id: CategoryId,
                                updated: Category, upper: string -> string)
    requires NamesUnique(categories, upper) && id in categories
    requires ValidateRename(categories, id, updated.name, upper).Pass?
    ensures NamesUnique(categories[id := updated], upper)
  {
  }

  // ---------------------------------------------------------------------
  // The parent relation
  // ---------------------------------------------------------------------

  /** Every parent pointer names a stored category (the foreign key). */
  ghost predicate ParentsStored(categories: map<CategoryId, Category>)
  {
    forall id :: id in categories && categories[id].parent.Some? ==> categories[id].parent.value in categories
  }

  /** Following parent pointers from `id` reaches a root in at most `n` steps. */
  ghost predicate ReachesRootWithin(categories: map<CategoryId, Category>, id: CategoryId, n: nat)
    decreases n
  {
    id in categories &&
    (categories[id].parent.None? || (n > 0 && ReachesRootWithin(categories, categories[id].parent.value, n - 1)))
  }

  /** The parent relation has no cycle: every category's chain of parents ends at a root. */
  ghost predicate Acyclic(categories: map<CategoryId, Category>)
  {
    forall id :: id in categories ==> exists n :: ReachesRootWithin(categories, id, n)
  }

  /** `a` is found within `n + 1` steps up the chain of parents of `id`. */
  ghost predicate AncestorWithin(categories: map<CategoryId, Category>, a: CategoryId, id: CategoryId, n: nat)
    decreases n
  {
    id in categories && categories[id].parent.Some? &&
    (categories[id].parent.value == a || (n > 0 && AncestorWithin(categories, a, categories[id].parent.value, n - 1)))
  }

  /** `a` is a proper ancestor of `id`. */
  ghost predicate IsAncestor(categories: map<CategoryId, Category>, a: CategoryId, id: CategoryId)
  {
    exists n :: AncestorWithin(categories, a, id, n)
  }

  /** One step of the ancestor walk: the ancestors of `id` are its parent and the parent's ancestors. */
  lemma AncestorStep(categories: map<CategoryId, Category>, a: CategoryId, id: CategoryId)
    ensures IsAncestor(categories, a, id) <==>
      id in categories && categories[id].parent.Some? &&
      (categories[id].parent.value == a || IsAncestor(categories, a, categories[id].parent.value))
  {
    if IsAncestor(categories, a, id) {
      var n: nat :| AncestorWithin(categories, a, id, n);
      if categories[id].parent.value != a {
        assert AncestorWithin(categories, a, categories[id].parent.value, n - 1);
      }
    }
    if id in categories && categories[id].parent.Some? {
      if categories[id].parent.value == a {
        assert AncestorWithin(categories, a, id, 0);
      } else if IsAncestor(categories, a, categories[id].parent.value) {
        var n: nat :| AncestorWithin(categories, a, categories[id].parent.value, n);
        assert AncestorWithin(categories, a, id, n + 1);
      }
    }
  }

  lemma {:induction false} ReachesRootMonotone(categories: map<CategoryId, Category>, id: CategoryId, n: nat, n': nat)
    requires ReachesRootWithin(categories, id, n) && n <= n'
    ensures ReachesRootWithin(categories, id, n')
    decreases n
  {
    if categories[id].parent.Some? {
      ReachesRootMonotone(categories, categories[id].parent.value, n - 1, n' - 1);
    }
  }

  /** Only stored categories are ancestors. */
  lemma {:induction false} AncestorIsStored(categories: map<CategoryId, Category>, a: CategoryId, id: CategoryId, n: nat)
    requires ParentsStored(categories) && AncestorWithin(categories, a, id, n)
    ensures a in categories
    decreases n
  {
    if categories[id].parent.value != a {
      AncestorIsStored(categories, a, categories[id].parent.value, n - 1);
    }
  }

  /**
   * A chain of parents that does not pass through `c` is the same in a
   * store that differs from this one at `c` alone.
   */
  lemma {:induction false} ChainAvoidingUnchanged(categories: map<CategoryId, Category>, categories': map<CategoryId, Category>,
                                c: CategoryId, id: CategoryId, n: nat)
    requires forall x :: x in categories && x != c ==> x in categories' && categories'[x] == categories[x]
    requires ReachesRootWithin(categories, id, n) && id != c && !IsAncestor(categories, c, id)
    ensures ReachesRootWithin(categories', id, n)
    decreases n
  {
    AncestorStep(categories, c, id);
    if categories[id].parent.Some? {
      ChainAvoidingUnchanged(categories, categories', c, categories[id].parent.value, n - 1);
    }
  }

  /**
   * Every chain of a store that differs from this one at `c` alone, where
   * `c` itself reaches a root in `m` steps, reaches a root.
   */
  lemma {:induction false} ChainThroughChanged(categories: map<CategoryId, Category>, categories': map<CategoryId, Category>,
                             c: CategoryId, m: nat, id: CategoryId, n: nat)
    requires forall x :: x in categories && x != c ==> x in categories' && categories'[x] == categories[x]
    requires ReachesRootWithin(categories', c, m)
    requires ReachesRootWithin(categories, id, n)
    ensures ReachesRootWithin(categories', id, n + m)
    decreases n
  {
    if id == c {
      ReachesRootMonotone(categories', c, m, n + m);
    } else if categories[id].parent.Some? {
      ChainThroughChanged(categories, categories', c, m, categories[id].parent.value, n - 1);
    }
  }

  /**
   * Re-parenting `c` keeps the relation acyclic when the new parent is
   * absent, or is a stored category other than `c` that does not have `c`
   * among its ancestors: the condition validateParentCategory checks.
   */
  lemma ReparentKeepsAcyclic(categories: map<CategoryId, Category>, c: CategoryId, updated: Category)
    requires ParentsStored(categories) && Acyclic(categories)
    requires c in categories
    requires updated.parent.Some? ==>
      updated.parent.value in categories && updated.parent.value != c && !IsAncestor(categories, c, updated.parent.value)
    ensures ParentsStored(categories[c := updated]) && Acyclic(categories[c := updated])
  {
    var categories' := categories[c := updated];
    var m: nat;
    if updated.parent.None? {
      m := 0;
    } else {
      var p := updated.parent.value;
      var k: nat :| ReachesRootWithin(categories, p, k);
      ChainAvoidingUnchanged(categories, categories', c, p, k);
      m := k + 1;
    }
    assert ReachesRootWithin(categories', c, m);
    forall id | id in categories'
      ensures exists n :: ReachesRootWithin(categories', id, n)
    {
      var n: nat :| ReachesRootWithin(categories, id, n);
      ChainThroughChanged(categories, categories', c, m, id, n);
    }
  }

  /** Adding a new category under a stored parent (or none) keeps the relation acyclic. */
  lemma AddKeepsAcyclic(categories: map<CategoryId, Category>, c: CategoryId, added: Category)
    requires ParentsStored(categories) && Acyclic(categories)
    requires c !in categories
    requires added.parent.Some? ==> added.parent.value in categories
    ensures ParentsStored(categories[c := added]) && Acyclic(categories[c := added])
  {
    var categories' := categories[c := added];
    var m: nat;
    if added.parent.None? {
      m := 0;
    } else {
      var p := added.parent.value;
      var k: nat :| ReachesRootWithin(categories, p, k);
      if IsAncestor(categories, c, p) {
        var j: nat :| AncestorWithin(categories, c, p, j);
        AncestorIsStored(categories, c, p, j);
      }
      ChainAvoidingUnchanged(categories, categories', c, p, k);
      m := k + 1;
    }
    assert ReachesRootWithin(categories', c, m);
    forall id | id in categories'
      ensures exists n :: ReachesRootWithin(categories', id, n)
    {
      if id == c {
      } else {
        var n: nat :| ReachesRootWithin(categories, id, n);
        ChainThroughChanged(categories, categories', c, m, id, n);
      }
    }
  }

  /** No stored category has `c` as its parent (findByParentCategoryId is empty). */
  predicate NoSubcategories(categories: map<CategoryId, Category>, c: CategoryId)
  {
    forall id :: id in categories ==> categories[id].parent != Some(c)
  }

  lemma {:induction false} ChainWithoutLeaf(categories: map<CategoryId, Category>, c: CategoryId, id: CategoryId, n: nat)
    requires NoSubcategories(categories, c)
    requires ReachesRootWithin(categories, id, n) && id != c
    ensures ReachesRootWithin(categories - {c}, id, n)
    decreases n
  {
    if categories[id].parent.Some? {
      ChainWithoutLeaf(categories, c, categories[id].parent.value, n - 1);
    }
  }

  /** Removing a category that no other category has as parent keeps the relation acyclic. */
  lemma RemoveLeafKeepsAcyclic(categories: map<CategoryId, Category>, c: CategoryId)
    requires ParentsStored(categories) && Acyclic(categories)
    requires NoSubcategories(categories, c)
    ensures ParentsStored(categories - {c}) && Acyclic(categories - {c})
  {
    forall id | id in categories - {c}
      ensures exists n :: ReachesRootWithin(categories - {c}, id, n)
    {
      var n: nat :| ReachesRootWithin(categories, id, n);
      ChainWithoutLeaf(categories, c, id, n);
    }
  }

  // ---------------------------------------------------------------------
  // The service
  // ---------------------------------------------------------------------

  class CategoryService {
    var categories: map<CategoryId, Category>
    /** The category column of the stored projects (Project.category). */
    var projectCategory: map<ProjectId, CategoryId>
    /** The database's upper-casing used by the ignore-case name lookups. */
    const upper: string -> string

    /**
     * Parent pointers and project categories name stored categories, the
     * parent relation is acyclic, and names are unique ignoring case.
     */
    ghost predicate Valid()
      reads this
    {
      && ParentsStored(categories)
      && Acyclic(categories)
      && NamesUnique(categories, upper)
      && (forall p :: p in projectCategory ==> projectCategory[p] in categories)
    }

    constructor (initialCategories: map<CategoryId, Category>, initialProjects: map<ProjectId, CategoryId>,
                 collationUpper: string -> string)
      requires ParentsStored(initialCategories) && Acyclic(initialCategories) && NamesUnique(initialCategories, collationUpper)
      requires forall p :: p in initialProjects ==> initialProjects[p] in initialCategories
      ensures Valid() && categories == initialCategories && projectCategory == initialProjects
      ensures upper == collationUpper
    {
      upper := collationUpper;
      categories := initialCategories;
      projectCategory := initialProjects;
    }

    /**
     * validateParentCategory: "Category cannot be its own parent", then
     * "Parent category not found", then a walk up from the parent's parent
     * that fails with "Circular reference in category hierarchy" on meeting
     * the category. It passes exactly when the new parent is a stored
     * category other than the category and not below it.
     */
    method ValidateParentCategory(categoryId: CategoryId, parentId: CategoryId) returns (r: Outcome)
      requires Valid()
      ensures categoryId == parentId ==> r == Fail(Validation("Category cannot be its own parent"))
      ensures categoryId != parentId && parentId !in categories ==> r == Fail(NotFound("Parent category not found"))
      ensures r.Pass? <==> categoryId != parentId && parentId in categories && !IsAncestor(categories, categoryId, parentId)
      ensures categoryId != parentId && parentId in categories && r.Fail? ==>
        r.error == Validation("Circular reference in category hierarchy")
    {
      if categoryId == parentId {
        return Fail(Validation("Category cannot be its own parent"));
      }
      if parentId !in categories {
        return Fail(NotFound("Parent category not found"));
      }
      ghost var n: nat :| ReachesRootWithin(categories, parentId, n);
      ghost var fuel: nat := if n > 0 then n - 1 else 0;
      var current := categories[parentId].parent;
      AncestorStep(categories, categoryId, parentId);
      while current.Some?
        invariant current.Some? ==> ReachesRootWithin(categories, current.value, fuel)
        invariant IsAncestor(categories, categoryId, parentId) <==>
          current.Some? && (current.value == categoryId || IsAncestor(categories, categoryId, current.value))
        decreases if current.Some? then fuel + 1 else 0
      {
        if current.value == categoryId {
          return Fail(Validation("Circular reference in category hierarchy"));
        }
        AncestorStep(categories, categoryId, current.value);
        current := categories[current.value].parent;
        fuel := if fuel > 0 then fuel - 1 else 0;
      }
      r := Pass;
    }

    /**
     * createCategory: the name check, then the parent lookup; on success
     * exactly one category is added under the given parent (or as a root).
     */
    method CreateCategory(request: CategoryRequest, newId: CategoryId) returns (r: Result<CategoryId>)
      requires Valid() && newId !in categories
      modifies this
      ensures Valid() && projectCategory == old(projectCategory)
      ensures NameTaken(old(categories), request.name, upper) ==> r == Err(Validation("Category with this name already exists"))
      ensures !NameTaken(old(categories), request.name, upper) && request.parentId.Some? && request.parentId.value !in old(categories) ==>
        r == Err(NotFound("Parent category not found"))
      ensures r.Ok? <==>
        !NameTaken(old(categories), request.name, upper) && (request.parentId.Some? ==> request.parentId.value in old(categories))
      ensures r.Err? ==> categories == old(categories)
      ensures r.Ok? ==> r.value == newId
      ensures r.Ok? ==> categories == old(categories)[newId := Category(request.name, request.description, request.parentId)]
    {
      var check := ValidateCategoryName(categories, request.name, upper);
      if check.Fail? {
        return Err(check.error);
      }
      if request.parentId.Some? && request.parentId.value !in categories {
        return Err(NotFound("Parent category not found"));
      }
      var added := Category(request.name, request.description, request.parentId);
      AddKeepsAcyclic(categories, newId, added);
      categories := categories[newId := added];
      r := Ok(newId);
    }

    /**
     * updateCategory: "Category not found", the name check when the name
     * changes, the parent validation when a parent is given; on success that
     * category alone takes the request's name, description and parent (none
     * when no parent id is given). The relation stays acyclic.
     */
    method UpdateCategory(id: CategoryId, request: CategoryRequest) returns (r: Outcome)
      requires Valid()
      modifies this
      ensures Valid() && projectCategory == old(projectCategory)
      ensures id !in old(categories) ==> r == Fail(NotFound("Category not found"))
      ensures id in old(categories) && ValidateRename(old(categories), id, request.name, upper).Fail? ==>
        r == ValidateRename(old(categories), id, request.name, upper)
      ensures r.Pass? <==>
        && id in old(categories)
        && ValidateRename(old(categories), id, request.name, upper).Pass?
        && (request.parentId.Some? ==> request.parentId.value != id && request.parentId.value in old(categories) &&
                                       !IsAncestor(old(categories), id, request.parentId.value))
      ensures id in old(categories) && ValidateRename(old(categories), id, request.name, upper).Pass? && request.parentId.Some? ==>
        var parentId := request.parentId.value;
        && (parentId == id ==> r == Fail(Validation("Category cannot be its own parent")))
        && (parentId != id && parentId !in old(categories) ==> r == Fail(NotFound("Parent category not found")))
        && (parentId != id && parentId in old(categories) && IsAncestor(old(categories), id, parentId) ==>
              r == Fail(Validation("Circular reference in category hierarchy")))
      ensures r.Fail? ==> categories == old(categories)
      ensures r.Pass? ==> categories == old(categories)[id := Category(request.name, request.description, request.parentId)]
    {
      if id !in categories {
        return Fail(NotFound("Category not found"));
      }
      r := ValidateRename(categories, id, request.name, upper);
      if r.Fail? {
        return;
      }
      if request.parentId.Some? {
        r := ValidateParentCategory(id, request.parentId.value);
        if r.Fail? {
          return;
        }
      }
      var updated := Category(request.name, request.description, request.parentId);
      ReparentKeepsAcyclic(categories, id, updated);
      RenameKeepsNamesUnique(categories, id, updated, upper);
      categories := categories[id := updated];
    }

    /**
     * deleteCategory: "Category not found", then "Cannot delete category
     * with subcategories", then "Cannot delete category with existing
     * projects"; otherwise exactly that category is removed.
     */
    method DeleteCategory(id: CategoryId) returns (r: Outcome)
      requires Valid()
      modifies this
      ensures Valid() && projectCategory == old(projectCategory)
      ensures id !in old(categories) ==> r == Fail(NotFound("Category not found"))
      ensures id in old(categories) && !NoSubcategories(old(categories), id) ==>
        r == Fail(Validation("Cannot delete category with subcategories"))
      ensures id in old(categories) && NoSubcategories(old(categories), id) && id in projectCategory.Values ==>
        r == Fail(Validation("Cannot delete category with existing projects"))
      ensures r.Pass? <==> id in old(categories) && NoSubcategories(old(categories), id) && id !in projectCategory.Values
      ensures r.Fail? ==> categories == old(categories)
      ensures r.Pass? ==> categories == old(categories) - {id}
    {
      if id !in categories {
        return Fail(NotFound("Category not found"));
      }
      if exists c :: c in categories && categories[c].parent == Some(id) {
        return Fail(Validation("Cannot delete category with subcategories"));
      }
      if id in projectCategory.Values {
        return Fail(Validation("Cannot delete category with existing projects"));
      }
      RemoveLeafKeepsAcyclic(categories, id);
      categories := categories - {id};
      r := Pass;
    }
  }
}
