/** The `catalog add`, `catalog remove` and `catalog list` commands over the
    template catalogs of the user configuration. Writing the configuration
    back to its file and drawing the table are outside this model. */
module BootCatalogCommands {
  import opened Wrappers

  /** A template catalog entry as stored in the user configuration; any of
      its fields may be null there. */
  datatype TemplateCatalog = TemplateCatalog(
    name: Option<string>,
    description: Option<string>,
    url: Option<string>)

  /** How a command ends: normally, or with the NullPointerException thrown
      when the configuration holds no catalog list at all. */
  datatype Outcome = Done | NullCatalogList

  /** One row of the table data; a null cell stays null. */
  type Row = seq<Option<string>>

  const Header: Row := [Some("Name"), Some("Description")]

  /** True when a catalog carries the given name (ObjectUtils.nullSafeEquals
      against a non-null name). */
  predicate Named(catalog: TemplateCatalog, name: string)
    ensures Named(catalog, name) ==> catalog.name.Some?
  {
    catalog.name == Some(name)
  }

  /** The filter of catalogRemove: the catalogs not carrying the name, in
      their original order. */
  function WithoutName(catalogs: seq<TemplateCatalog>, name: string): (r: seq<TemplateCatalog>)
    ensures |r| <= |catalogs|
    ensures forall i :: 0 <= i < |r| ==> !Named(r[i], name)
  {
    if catalogs == [] then []
    else if !Named(catalogs[0], name) then [catalogs[0]] + WithoutName(catalogs[1..], name)
    else WithoutName(catalogs[1..], name)
  }

  /** a is obtained from b by deleting elements, so a keeps b's order. */
  ghost predicate IsSubsequence<T>(a: seq<T>, b: seq<T>)
    decreases |b|
  {
    a == [] || (b != [] && ((a[0] == b[0] && IsSubsequence(a[1..], b[1..])) || IsSubsequence(a, b[1..])))
  }

  /** Removal keeps the remaining catalogs in their original relative order. */
  lemma {:induction false} RemovePreservesOrder(catalogs: seq<TemplateCatalog>, name: string)
    ensures IsSubsequence(WithoutName(catalogs, name), catalogs)
  {
    if catalogs != [] {
      RemovePreservesOrder(catalogs[1..], name);
    }
  }

  /** Removal keeps every catalog with a different name, as many times as it occurred. */
  lemma {:induction false} RemoveKeepsOthers(catalogs: seq<TemplateCatalog>, name: string, c: TemplateCatalog)
    requires !Named(c, name)
    ensures multiset(WithoutName(catalogs, name))[c] == multiset(catalogs)[c]
  {
    if catalogs != [] {
      RemoveKeepsOthers(catalogs[1..], name, c);
      assert catalogs == [catalogs[0]] + catalogs[1..];
    }
  }

  /** Removing a name that no catalog carries leaves the list as it was. */
  lemma {:induction false} RemoveAbsent(catalogs: seq<TemplateCatalog>, name: string)
    requires forall i :: 0 <= i < |catalogs| ==> !Named(catalogs[i], name)
    ensures WithoutName(catalogs, name) == catalogs
  {
    if catalogs != [] {
      RemoveAbsent(catalogs[1..], name);
    }
  }

  /** Removing twice is removing once. */
  lemma RemoveIdempotent(catalogs: seq<TemplateCatalog>, name: string)
    ensures WithoutName(WithoutName(catalogs, name), name) == WithoutName(catalogs, name)
  {
    RemoveAbsent(WithoutName(catalogs, name), name);
  }

  lemma {:induction false} RemoveDistributes(a: seq<TemplateCatalog>, b: seq<TemplateCatalog>, name: string)
    ensures WithoutName(a + b, name) == WithoutName(a, name) + WithoutName(b, name)
  {
    if a == [] {
      assert a + b == b;
    } else {
      assert (a + b)[0] == a[0] && (a + b)[1..] == a[1..] + b;
      RemoveDistributes(a[1..], b, name);
    }
  }

  /** Removing a name undoes adding a catalog of that name, and leaves
      alone a catalog added under another name. */
  lemma RemoveAfterAdd(catalogs: seq<TemplateCatalog>, added: TemplateCatalog, name: string)
    ensures WithoutName(catalogs + [added], name)
         == if Named(added, name) then WithoutName(catalogs, name) else WithoutName(catalogs, name) + [added]
  {
    RemoveDistributes(catalogs, [added], name);
  }

  /** The data rows of catalogList: one [name, description] row per catalog, in list order. */
  function Rows(catalogs: seq<TemplateCatalog>): (rows: seq<Row>)
    ensures |rows| == |catalogs|
    ensures forall i :: 0 <= i < |catalogs| ==> rows[i] == [catalogs[i].name, catalogs[i].description]
  {
    if catalogs == [] then []
    else [[catalogs[0].name, catalogs[0].description]] + Rows(catalogs[1..])
  }

  /** The user configuration, reduced to its template-catalog list, which
      may be null. */
  class UpCliUserConfig {
    var templateCatalogs: Option<seq<TemplateCatalog>>

    constructor (templateCatalogs: Option<seq<TemplateCatalog>>)
      ensures this.templateCatalogs == templateCatalogs
    {
      this.templateCatalogs := templateCatalogs;
    }

    /** catalogAdd: appends the new catalog at the end, with no check for
        an existing catalog of the same name. */
    method CatalogAdd(name: string, url: string, description: Option<string>) returns (r: Outcome)
      modifies this
      ensures old(templateCatalogs).None? ==> r == NullCatalogList && templateCatalogs == old(templateCatalogs)
      ensures old(templateCatalogs).Some? ==>
        && r == Done
        && templateCatalogs == Some(old(templateCatalogs).value + [TemplateCatalog(Some(name), description, Some(url))])
    {
      if templateCatalogs.None? {
        return NullCatalogList;
      }
      var catalogs := templateCatalogs.value;
      catalogs := catalogs + [TemplateCatalog(Some(name), description, Some(url))];
      templateCatalogs := Some(catalogs);
      return Done;
    }

    /** catalogRemove: keeps the catalogs whose name differs from the given one. */
    method CatalogRemove(name: string) returns (r: Outcome)
      modifies this
      ensures old(templateCatalogs).None? ==> r == NullCatalogList && templateCatalogs == old(templateCatalogs)
      ensures old(templateCatalogs).Some? ==>
        r == Done && templateCatalogs == Some(WithoutName(old(templateCatalogs).value, name))
    {
      if templateCatalogs.None? {
        return NullCatalogList;
      }
      templateCatalogs := Some(WithoutName(templateCatalogs.value, name));
      return Done;
    }

    /** catalogList: the header row followed by one row per catalog, in
        list order; a null list gives the header alone. */
    method CatalogList() returns (data: seq<Row>)
      ensures |data| == 1 + (if templateCatalogs.Some? then |templateCatalogs.value| else 0)
      ensures data[0] == Header
      ensures templateCatalogs.Some? ==> forall i :: 0 <= i < |templateCatalogs.value| ==>
        data[i + 1] == [templateCatalogs.value[i].name, templateCatalogs.value[i].description]
    {
      var rows := if templateCatalogs.Some? then Rows(templateCatalogs.value) else [];
      data := [Header] + rows;
    }
  }

  /** Adding then listing shows the new catalog on the last row and every
      earlier row unchanged; a second add of the same name shows twice. */
  lemma AddedCatalogListedLast(catalogs: seq<TemplateCatalog>, name: string, url: string, description: Option<string>)
    ensures Rows(catalogs + [TemplateCatalog(Some(name), description, Some(url))])
         == Rows(catalogs) + [[Some(name), description]]
  {
  }
}
