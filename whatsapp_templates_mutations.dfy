/** The `templates` table that mirrors the WhatsApp message templates, and its upsert keyed
    on (name, language). A row's id is its position; the modelled code never deletes rows. */
module WhatsAppTemplatesMutations {
  import opened Common

  type TemplateId = nat

  datatype Button = Button(kind: string, text: string, url: Option<string>, phoneNumber: Option<string>)

  /** One component of a template (HEADER, BODY, FOOTER, BUTTONS). */
  datatype Component = Component(kind: string, format: Option<string>, text: Option<string>, buttons: Option<seq<Button>>)

  datatype Template = Template(
    name: string,
    language: string,
    category: string,
    status: string,
    externalId: Option<string>,
    components: seq<Component>,
    lastSyncedAt: int)

  /** The arguments of `upsertTemplate`. */
  datatype TemplateArgs = TemplateArgs(name: string, language: string, category: string, status: string,
                                       externalId: Option<string>, components: seq<Component>)

  predicate HasKey(t: Template, name: string, language: string) {
    t.name == name && t.language == language
  }

  /** At most one row per (name, language). */
  predicate UniqueKeys(rows: seq<Template>) {
    forall i, j :: 0 <= i < j < |rows| ==> !(rows[i].name == rows[j].name && rows[i].language == rows[j].language)
  }

  /** The first row with the key, as the query's `.first()` returns it. */
  function FindTemplate(rows: seq<Template>, name: string, language: string): (r: Option<TemplateId>)
    ensures r.Some? ==> r.value < |rows| && HasKey(rows[r.value], name, language)
    ensures r.Some? ==> forall j :: 0 <= j < r.value ==> !HasKey(rows[j], name, language)
    ensures r.None? <==> forall j :: 0 <= j < |rows| ==> !HasKey(rows[j], name, language)
  {
    if rows == [] then None
    else if HasKey(rows[0], name, language) then Some(0)
    else
      var rest := FindTemplate(rows[1..], name, language);
      if rest.None? then None
      else
        assert forall j :: 1 <= j < |rows| ==> rows[j] == rows[1..][j - 1];
        Some(rest.value + 1)
  }

  /** The fields a sync overwrites; name and language stay. */
  function Refresh(t: Template, a: TemplateArgs, now: int): Template {
    t.(category := a.category, status := a.status, externalId := a.externalId,
       components := a.components, lastSyncedAt := now)
  }

  function RowOf(a: TemplateArgs, now: int): Template {
    Template(a.name, a.language, a.category, a.status, a.externalId, a.components, now)
  }

  datatype Upserted = Upserted(rows: seq<Template>, id: TemplateId)

  /** `upsertTemplate` on the table's contents. */
  function Upsert(rows: seq<Template>, a: TemplateArgs, now: int): (u: Upserted)
    ensures u.id < |u.rows| && u.rows[u.id] == RowOf(a, now)
    ensures |u.rows| == |rows| + (if FindTemplate(rows, a.name, a.language).Some? then 0 else 1)
    ensures forall i :: 0 <= i < |rows| ==> u.rows[i].name == rows[i].name && u.rows[i].language == rows[i].language
    ensures forall i :: 0 <= i < |rows| && i != u.id ==> u.rows[i] == rows[i]
    ensures UniqueKeys(rows) ==> UniqueKeys(u.rows)
    ensures FindTemplate(u.rows, a.name, a.language) == Some(u.id)
  {
    match FindTemplate(rows, a.name, a.language)
    case Some(id) => Upserted(rows[id := Refresh(rows[id], a, now)], id)
    case None => Upserted(rows + [RowOf(a, now)], |rows|)
  }

  /** A second sync of the same template only refreshes the row the first one wrote. */
  lemma UpsertTwice(rows: seq<Template>, a: TemplateArgs, b: TemplateArgs, t1: int, t2: int)
    requires a.name == b.name && a.language == b.language
    ensures var first := Upsert(rows, a, t1);
      var second := Upsert(first.rows, b, t2);
      second.id == first.id && second.rows == first.rows[first.id := RowOf(b, t2)]
  {
  }

  /** Rows with another key are never looked at or changed. */
  lemma UpsertKeepsOtherKeys(rows: seq<Template>, a: TemplateArgs, now: int, name: string, language: string)
    requires !(name == a.name && language == a.language)
    requires FindTemplate(rows, name, language).Some?
    ensures var u := Upsert(rows, a, now);
      FindTemplate(u.rows, name, language) == FindTemplate(rows, name, language)
      && u.rows[FindTemplate(rows, name, language).value] == rows[FindTemplate(rows, name, language).value]
  {
    var u := Upsert(rows, a, now);
    var f := FindTemplate(rows, name, language).value;
    assert f != u.id by {
      assert HasKey(rows[f], name, language) && HasKey(u.rows[u.id], a.name, a.language);
    }
    FirstKeyUnchanged(rows, u.rows, name, language, f);
  }

  /** The first row with a key stays first when only rows after it, or rows without that key,
      change. */
  lemma FirstKeyUnchanged(rows: seq<Template>, rows': seq<Template>, name: string, language: string, f: nat)
    requires |rows| <= |rows'| && f < |rows| && rows'[f] == rows[f]
    requires FindTemplate(rows, name, language) == Some(f)
    requires forall j :: 0 <= j < f ==> rows'[j].name == rows[j].name && rows'[j].language == rows[j].language
    ensures FindTemplate(rows', name, language) == Some(f)
  {
    var r := FindTemplate(rows', name, language);
    assert HasKey(rows'[f], name, language);
    assert r.Some?;
    var k := r.value;
    assert k <= f;
    if k < f {
      assert false;
    }
  }

  class TemplateTable {
    var rows: seq<Template>

    constructor (rows: seq<Template>)
      ensures this.rows == rows
    {
      this.rows := rows;
    }

    /** `upsertTemplate`: patch the row with this name and language, or insert one. */
    method UpsertTemplate(a: TemplateArgs, now: int) returns (id: TemplateId)
      modifies this
      ensures Upserted(rows, id) == Upsert(old(rows), a, now)
    {
      var existing := FindTemplate(rows, a.name, a.language);
      if existing.Some? {
        id := existing.value;
        rows := rows[id := rows[id].(category := a.category, status := a.status, externalId := a.externalId,
                                     components := a.components, lastSyncedAt := now)];
      } else {
        id := |rows|;
        rows := rows + [Template(a.name, a.language, a.category, a.status, a.externalId, a.components, now)];
      }
    }
  }
}
