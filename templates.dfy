/** The template registry: a fixed, ordered catalog of email templates, a
    table that names the raw markup module each template's content is loaded
    from, and the three lookups over the catalog. */
module Templates {
  import opened Wrappers
  import Seqs

  datatype Category = Event | Promotion | Newsletter | Notification

  datatype EmailTemplate = EmailTemplate(
    id: string,
    name: string,
    description: string,
    subject: string,
    category: Category)

  /** The catalog, in declaration order. */
  const EmailTemplates: seq<EmailTemplate> := [
    EmailTemplate(
      "test-event",
      "Evento de Prueba",
      "Plantilla para invitaciones a eventos especiales",
      "¡Estás invitado a nuestro próximo evento! - CaribbeanXam",
      Event),
    EmailTemplate(
      "promotion-offer",
      "Oferta Especial",
      "Plantilla para promociones y ofertas especiales",
      "¡Oferta Especial por Tiempo Limitado! - CaribbeanXam",
      Promotion),
    EmailTemplate(
      "newsletter",
      "Newsletter Mensual",
      "Plantilla para newsletters mensuales",
      "Newsletter Mensual - CaribbeanXam",
      Newsletter)
  ]

  /** The content loader table: each key's loader imports the module named by
      its value as raw text. The import itself is external. */
  const TemplateContent: map<string, string> := map[
    "test-event" := "./test-event.html?raw",
    "promotion-offer" := "./promotion-offer.html?raw",
    "newsletter" := "./newsletter.html?raw"
  ]

  /** A catalog together with its loader table. */
  datatype Registry = Registry(templates: seq<EmailTemplate>, content: map<string, string>)

  /** The registry the application ships with. */
  const Shipped: Registry := Registry(EmailTemplates, TemplateContent)

  ghost predicate IdsDistinct(ts: seq<EmailTemplate>)
  {
    forall i, j | 0 <= i < j < |ts| :: ts[i].id != ts[j].id
  }

  /** The predicate `template => template.id === id`. */
  function HasId(id: string): EmailTemplate -> bool
  {
    (t: EmailTemplate) => t.id == id
  }

  /** The predicate `template => template.category === category`. */
  function InCategory(c: Category): EmailTemplate -> bool
  {
    (t: EmailTemplate) => t.category == c
  }

  /** The first template of `ts` with identifier `id`, if any. */
  function FindById(ts: seq<EmailTemplate>, id: string): (r: Option<EmailTemplate>)
    ensures r.Some? ==> r.value in ts && r.value.id == id
    ensures r.None? <==> forall k | 0 <= k < |ts| :: ts[k].id != id
  {
    Seqs.Find(ts, HasId(id))
  }

  /** `FindById` picks the first match. */
  lemma {:induction false} FindByIdFirst(ts: seq<EmailTemplate>, id: string, i: int)
    requires 0 <= i < |ts| && ts[i].id == id
    requires forall j | 0 <= j < i :: ts[j].id != id
    ensures FindById(ts, id) == Some(ts[i])
  {
    Seqs.FindFirst(ts, HasId(id), i);
  }

  /** With distinct identifiers, looking up an entry's own id returns that entry. */
  lemma FindByIdOwnId(ts: seq<EmailTemplate>, i: int)
    requires IdsDistinct(ts) && 0 <= i < |ts|
    ensures FindById(ts, ts[i].id) == Some(ts[i])
  {
    FindByIdFirst(ts, ts[i].id, i);
  }

  function GetTemplateById(id: string): (r: Option<EmailTemplate>)
    ensures r.Some? <==> id == "test-event" || id == "promotion-offer" || id == "newsletter"
    ensures r.Some? ==> r.value in EmailTemplates && r.value.id == id
  {
    FindById(EmailTemplates, id)
  }

  function GetTemplatesByCategory(c: Category): (r: seq<EmailTemplate>)
    ensures |r| <= |EmailTemplates|
    ensures forall k | 0 <= k < |r| :: r[k].category == c && r[k] in EmailTemplates
    ensures forall k | 0 <= k < |EmailTemplates| :: EmailTemplates[k].category == c ==> EmailTemplates[k] in r
  {
    Seqs.Filter(EmailTemplates, InCategory(c))
  }

  function GetAllTemplates(): (r: seq<EmailTemplate>)
    ensures |r| == 3
    ensures r[0].id == "test-event" && r[1].id == "promotion-offer" && r[2].id == "newsletter"
    ensures IdsDistinct(r)
  {
    EmailTemplates
  }

  /** The category query returns the catalog's entries of that category in
      catalog order, and nothing else. */
  lemma CategoryIsSubsequence(c: Category)
    ensures Seqs.IsSubsequence(GetTemplatesByCategory(c), GetAllTemplates())
  {
    Seqs.FilterIsSubsequence(EmailTemplates, InCategory(c));
  }

  /** Every catalog entry is found by its own identifier. */
  lemma CatalogLookupByOwnId(t: EmailTemplate)
    requires t in EmailTemplates
    ensures GetTemplateById(t.id) == Some(t)
  {
    var i :| 0 <= i < |EmailTemplates| && EmailTemplates[i] == t;
    FindByIdOwnId(EmailTemplates, i);
  }

  /** The loader table has a key for each catalog identifier and no other key. */
  lemma LoaderKeysMatchCatalog()
    ensures TemplateContent.Keys == set t | t in EmailTemplates :: t.id
  {
    var ids := set t | t in EmailTemplates :: t.id;
    assert EmailTemplates[0].id in ids && EmailTemplates[1].id in ids && EmailTemplates[2].id in ids;
  }

  /** Every template the shipped registry can find has a loader. */
  lemma ShippedLoaderForEveryTemplate(id: string)
    requires FindById(Shipped.templates, id).Some?
    ensures id in Shipped.content
  {
  }

  lemma PromotionCategory()
    ensures GetTemplatesByCategory(Promotion) == [EmailTemplates[1]]
  {
    var p := InCategory(Promotion);
    assert EmailTemplates == [EmailTemplates[0]] + [EmailTemplates[1]] + [EmailTemplates[2]];
    Seqs.FilterAppend([EmailTemplates[0]] + [EmailTemplates[1]], [EmailTemplates[2]], p);
    Seqs.FilterAppend([EmailTemplates[0]], [EmailTemplates[1]], p);
  }

  lemma NotificationCategoryEmpty()
    ensures GetTemplatesByCategory(Notification) == []
  {
  }
}
