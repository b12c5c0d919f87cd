/**
 * The editable site content of the barbershop: one record of texts, a
 * catalogue of services and a set of social contacts. It lives in memory
 * only; every operation replaces the record with a new one computed from
 * the current one.
 */
module Contents {
  import opened Wrappers
  import opened Seqs

  datatype ServiceCategory = Corte | Barba | Combo | Tratamento

  datatype Service = Service(
    id: string,
    name: string,
    description: string,
    price: string,
    category: ServiceCategory)

  /** What a caller hands to `addService`: a service without its id. */
  datatype ServiceDraft = ServiceDraft(
    name: string,
    description: string,
    price: string,
    category: ServiceCategory)

  /** A partial service: the fields present overwrite the stored ones (the id included). */
  datatype ServicePatch = ServicePatch(
    id: Option<string>,
    name: Option<string>,
    description: Option<string>,
    price: Option<string>,
    category: Option<ServiceCategory>)

  datatype Contacts = Contacts(instagram: Option<string>, facebook: Option<string>, email: Option<string>)

  datatype Content = Content(
    title: string,
    subtitle: string,
    about: string,
    hours: string,
    address: string,
    phone: string,
    whatsapp: string,
    bannerImage: string,
    services: seq<Service>,
    contacts: Contacts)

  /** A partial content record: each top-level field present replaces the stored one wholesale. */
  datatype ContentPatch = ContentPatch(
    title: Option<string>,
    subtitle: Option<string>,
    about: Option<string>,
    hours: Option<string>,
    address: Option<string>,
    phone: Option<string>,
    whatsapp: Option<string>,
    bannerImage: Option<string>,
    services: Option<seq<Service>>,
    contacts: Option<Contacts>)

  const EmptyContentPatch := ContentPatch(None, None, None, None, None, None, None, None, None, None)

  /** The content the provider starts with. */
  const DefaultContent: Content := Content(
    "MV Barbearia",
    "Seu visual, nossa missão",
    "Somos uma barbearia moderna que combina técnicas tradicionais com as últimas tendências em cortes masculinos.",
    "Segunda - Sexta 9h às 19h | Sáb: 8h às 14h",
    "Rua Lauro Linhares 1060, Trindade",
    "(48) 99140-1012",
    "(48) 99140-1012",
    "/images/bannerbarbearia.png",
    [
      Service("1", "Corte Degradê", "Corte moderno com técnica de degradê", "R$ 35,00", Corte),
      Service("2", "Barba Tradicional", "Barba feita com navalha e produtos especiais", "R$ 25,00", Barba),
      Service("3", "Combo Corte + Barba", "Corte de cabelo + barba tradicional", "R$ 55,00", Combo),
      Service("4", "Hidratação Capilar", "Tratamento completo para cabelos", "R$ 40,00", Tratamento)
    ],
    Contacts(Some("@mvbarbearia"), Some("MVBarbearia"), Some("mvcontato@gmail.com")))

  /** The default catalogue holds four services with ids "1" to "4", in that order, one per category. */
  lemma DefaultCatalogue()
    ensures |DefaultContent.services| == 4
    ensures forall i :: 0 <= i < 4 ==> DefaultContent.services[i].id == ["1", "2", "3", "4"][i]
    ensures forall i :: 0 <= i < 4 ==> DefaultContent.services[i].category == [Corte, Barba, Combo, Tratamento][i]
  {
  }

  /** `c` already holds every field the patch carries. */
  predicate CarriesContent(c: Content, p: ContentPatch) {
    p.title.GetOr(c.title) == c.title && p.subtitle.GetOr(c.subtitle) == c.subtitle &&
    p.about.GetOr(c.about) == c.about && p.hours.GetOr(c.hours) == c.hours &&
    p.address.GetOr(c.address) == c.address && p.phone.GetOr(c.phone) == c.phone &&
    p.whatsapp.GetOr(c.whatsapp) == c.whatsapp && p.bannerImage.GetOr(c.bannerImage) == c.bannerImage &&
    p.services.GetOr(c.services) == c.services && p.contacts.GetOr(c.contacts) == c.contacts
  }

  /** `r` has every field the patch does not carry as `c` has it. */
  predicate KeepsOmittedContent(c: Content, r: Content, p: ContentPatch) {
    (p.title.None? ==> r.title == c.title) && (p.subtitle.None? ==> r.subtitle == c.subtitle) &&
    (p.about.None? ==> r.about == c.about) && (p.hours.None? ==> r.hours == c.hours) &&
    (p.address.None? ==> r.address == c.address) && (p.phone.None? ==> r.phone == c.phone) &&
    (p.whatsapp.None? ==> r.whatsapp == c.whatsapp) && (p.bannerImage.None? ==> r.bannerImage == c.bannerImage) &&
    (p.services.None? ==> r.services == c.services) && (p.contacts.None? ==> r.contacts == c.contacts)
  }

  /**
   * Shallow merge of a partial record: the fields the patch carries replace the
   * stored ones, every other field keeps its value, and the merge changes
   * nothing exactly when the record already agrees with the patch.
   */
  function MergeContent(c: Content, p: ContentPatch): (r: Content)
    ensures CarriesContent(r, p)
    ensures KeepsOmittedContent(c, r, p)
    ensures r == c <==> CarriesContent(c, p)
  {
    Content(
      p.title.GetOr(c.title), p.subtitle.GetOr(c.subtitle), p.about.GetOr(c.about),
      p.hours.GetOr(c.hours), p.address.GetOr(c.address), p.phone.GetOr(c.phone),
      p.whatsapp.GetOr(c.whatsapp), p.bannerImage.GetOr(c.bannerImage),
      p.services.GetOr(c.services), p.contacts.GetOr(c.contacts))
  }

  /** The patch that carries every field of `c`. */
  function FullPatch(c: Content): ContentPatch {
    ContentPatch(
      Some(c.title), Some(c.subtitle), Some(c.about), Some(c.hours), Some(c.address),
      Some(c.phone), Some(c.whatsapp), Some(c.bannerImage), Some(c.services), Some(c.contacts))
  }

  /** The patch in which `q` wins over `p` wherever both carry a field. */
  function ThenContentPatch(p: ContentPatch, q: ContentPatch): ContentPatch {
    ContentPatch(
      if q.title.Some? then q.title else p.title,
      if q.subtitle.Some? then q.subtitle else p.subtitle,
      if q.about.Some? then q.about else p.about,
      if q.hours.Some? then q.hours else p.hours,
      if q.address.Some? then q.address else p.address,
      if q.phone.Some? then q.phone else p.phone,
      if q.whatsapp.Some? then q.whatsapp else p.whatsapp,
      if q.bannerImage.Some? then q.bannerImage else p.bannerImage,
      if q.services.Some? then q.services else p.services,
      if q.contacts.Some? then q.contacts else p.contacts)
  }

  /**
   * An empty patch changes nothing, a patch carrying every field replaces the
   * whole record, a patch applied twice acts once, and two updates in a row act
   * as one update with their combination.
   */
  lemma MergeContentLaws(c: Content, d: Content, p: ContentPatch, q: ContentPatch)
    ensures MergeContent(c, EmptyContentPatch) == c
    ensures MergeContent(c, FullPatch(d)) == d
    ensures MergeContent(MergeContent(c, p), p) == MergeContent(c, p)
    ensures MergeContent(MergeContent(c, p), q) == MergeContent(c, ThenContentPatch(p, q))
  {
  }

  /** A service with its id dropped: the inverse of `NewService`. */
  function ServiceDraftOf(s: Service): ServiceDraft {
    ServiceDraft(s.name, s.description, s.price, s.category)
  }

  /** The service `addService` stores: the caller's fields plus the generated id. */
  function NewService(d: ServiceDraft, id: string): (s: Service)
    ensures s.id == id && ServiceDraftOf(s) == d
  {
    Service(id, d.name, d.description, d.price, d.category)
  }

  /** `s` already holds every field the patch carries. */
  predicate CarriesService(s: Service, p: ServicePatch) {
    p.id.GetOr(s.id) == s.id && p.name.GetOr(s.name) == s.name &&
    p.description.GetOr(s.description) == s.description && p.price.GetOr(s.price) == s.price &&
    p.category.GetOr(s.category) == s.category
  }

  /** `r` has every field the patch does not carry as `s` has it. */
  predicate KeepsOmittedService(s: Service, r: Service, p: ServicePatch) {
    (p.id.None? ==> r.id == s.id) && (p.name.None? ==> r.name == s.name) &&
    (p.description.None? ==> r.description == s.description) && (p.price.None? ==> r.price == s.price) &&
    (p.category.None? ==> r.category == s.category)
  }

  /** Shallow merge of a partial service: every field the patch carries wins, the id included; the others keep their values. */
  function MergeService(s: Service, p: ServicePatch): (r: Service)
    ensures CarriesService(r, p)
    ensures KeepsOmittedService(s, r, p)
    ensures r == s <==> CarriesService(s, p)
    ensures p.id.None? ==> r.id == s.id
  {
    Service(p.id.GetOr(s.id), p.name.GetOr(s.name), p.description.GetOr(s.description),
            p.price.GetOr(s.price), p.category.GetOr(s.category))
  }

  /** Changing the price of a service touches nothing else, not even its id. */
  lemma PriceOnlyPatch(s: Service, price: string)
    ensures MergeService(s, ServicePatch(None, None, None, Some(price), None)) == s.(price := price)
  {
  }

  /** The record after `addService`: one new service at the end, every other field as before. */
  function AppendService(c: Content, d: ServiceDraft, id: string): (r: Content)
    ensures |r.services| == |c.services| + 1
    ensures r.services[..|c.services|] == c.services
    ensures r.services[|c.services|] == NewService(d, id) && r.services[|c.services|].id == id
    ensures r.(services := c.services) == c
  {
    c.(services := c.services + [NewService(d, id)])
  }

  /** The record after `updateService`: matching services merged, every other service and field as before. */
  function UpdateServices(c: Content, id: string, p: ServicePatch): (r: Content)
    ensures |r.services| == |c.services|
    ensures forall i :: 0 <= i < |c.services| && c.services[i].id != id ==> r.services[i] == c.services[i]
    ensures forall i :: 0 <= i < |c.services| && c.services[i].id == id ==> r.services[i] == MergeService(c.services[i], p)
    ensures (forall s :: s in c.services ==> s.id != id) ==> r == c
    ensures r.(services := c.services) == c
  {
    c.(services := MapWhere(c.services, (s: Service) => s.id == id, (s: Service) => MergeService(s, p)))
  }

  /** The record after `deleteService`: matching services dropped, the rest in order, every other field as before. */
  function RemoveService(c: Content, id: string): (r: Content)
    ensures IsSubsequence(r.services, c.services)
    ensures forall s :: s in r.services <==> s in c.services && s.id != id
    ensures forall s :: multiset(r.services)[s] == if s.id != id then multiset(c.services)[s] else 0
    ensures (forall s :: s in c.services ==> s.id != id) ==> r == c
    ensures r.(services := c.services) == c
  {
    var keep := (s: Service) => s.id != id;
    FilterIsSubsequence(c.services, keep);
    FilterMultisets(c.services, keep);
    FilterKeepsAll(c.services, keep);
    c.(services := Filter(c.services, keep))
  }

  /** Deleting the same service a second time changes nothing. */
  lemma RemoveServiceIdempotent(c: Content, id: string)
    ensures RemoveService(RemoveService(c, id), id) == RemoveService(c, id)
  {
  }

  /** After a delete, updating the deleted id is a no-op. */
  lemma UpdateAfterRemove(c: Content, id: string, p: ServicePatch)
    ensures UpdateServices(RemoveService(c, id), id, p) == RemoveService(c, id)
  {
  }

  /** Adding a service under an id no service has, then deleting that id, gives back the original record. */
  lemma AddThenDeleteService(c: Content, d: ServiceDraft, id: string)
    requires forall s :: s in c.services ==> s.id != id
    ensures RemoveService(AppendService(c, d, id), id) == c
  {
    var keep := (s: Service) => s.id != id;
    FilterAppend(c.services, [NewService(d, id)], keep);
    FilterKeepsAll(c.services, keep);
    assert Filter([NewService(d, id)], keep) == [];
  }

  /**
   * The content provider. It owns no storage: its operations change the
   * in-memory record and nothing else.
   */
  class ContentStore {
    var content: Content

    constructor ()
      ensures content == DefaultContent
    {
      content := DefaultContent;
    }

    method UpdateContent(p: ContentPatch)
      modifies this
      ensures content == MergeContent(old(content), p)
      ensures CarriesContent(content, p) && KeepsOmittedContent(old(content), content, p)
    {
      content := MergeContent(content, p);
    }

    /** `addService` with the generated id `id`. */
    method AddService(d: ServiceDraft, id: string)
      modifies this
      ensures content == AppendService(old(content), d, id)
      ensures content.services == old(content.services) + [NewService(d, id)]
    {
      content := AppendService(content, d, id);
    }

    method UpdateService(id: string, p: ServicePatch)
      modifies this
      ensures content == UpdateServices(old(content), id, p)
    {
      content := UpdateServices(content, id, p);
    }

    method DeleteService(id: string)
      modifies this
      ensures content == RemoveService(old(content), id)
    {
      content := RemoveService(content, id);
    }
  }
}
