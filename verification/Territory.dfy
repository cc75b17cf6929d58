/** The jurisdiction table seen as parent links, and chains of ancestors
    (src/application/setup.rs, src/infrastructure/catalog.rs). */
module Territory {
  import opened Prelude
  import opened Electoral

  type Id = nat
  datatype Jurisdiction = Jurisdiction(level: Level, parent: Option<Id>)
  type Catalog = map<Id, Jurisdiction>

  function Parent(c: Catalog, j: Id): Option<Id> {
    if j in c then c[j].parent else None
  }

  /** The n-th ancestor of `j`, `None` past the root. */
  function Up(c: Catalog, j: Id, n: nat): Option<Id> {
    if n == 0 then Some(j)
    else
      match Up(c, j, n - 1)
      case None => None
      case Some(a) => Parent(c, a)
  }

  ghost predicate Rooted(c: Catalog, j: Id) { exists n :: Up(c, j, n).None? }

  /** No cycles: following parents ends from everywhere. */
  ghost predicate Forest(c: Catalog) { forall j :: Rooted(c, j) }

  lemma {:induction false} PastTheRoot(c: Catalog, j: Id, n: nat, m: nat)
    requires Up(c, j, n).None? && n <= m
    ensures Up(c, j, m).None?
  {
    if n < m {
      PastTheRoot(c, j, n, m - 1);
    }
  }

  /** Ancestors of an ancestor are ancestors. */
  lemma {:induction false} UpCompose(c: Catalog, j: Id, n: nat, a: Id, m: nat)
    requires Up(c, j, n) == Some(a)
    ensures Up(c, j, n + m) == Up(c, a, m)
  {
    if m > 0 {
      UpCompose(c, j, n, a, m - 1);
    }
  }
}
