/**
 * The page populator: one renderer per page section, each emptying its
 * containers and appending one fragment per source item, run in a fixed
 * order by `PopulatePage`, and the specification `Populate` of the page
 * that results.
 */
module Populate {
  import opened Wrappers
  import opened JsStrings
  import opened Schema
  import opened Dom
  import opened Rules

  // ================================================================ specification

  const HeaderRegions: set<Region> := {SocialLinks, HeaderButtons}
  const HomeRegions: set<Region> := {TextRotation}
  const AboutRegions: set<Region> := {ServicesRow, Testimonials}
  const ResumeRegions: set<Region> := {Timeline, SkillsInfo, KnowledgeList, Certificates}
  const AllRegions: set<Region> :=
    HeaderRegions + HomeRegions + AboutRegions + ResumeRegions + {ClientCards, ToolCards, HonorRows}
  const AllSlots: set<TextSlot> := {HeaderName, HeaderSubtitle, HomeTitle, AboutSummary}

  /** The regions in `rs` rebuilt from `d`; every other region as it was. */
  function Rerender(m: map<Region, seq<Node>>, rs: set<Region>, d: SiteData): map<Region, seq<Node>> {
    map r | r in m :: if r in rs then RegionNodes(r, d) else m[r]
  }

  /** The text slots in `ts` rewritten from `d`; every other slot as it was. */
  function Retext(m: map<TextSlot, string>, ts: set<TextSlot>, d: SiteData): map<TextSlot, string> {
    map t | t in m :: if t in ts then TextOf(t, d) else m[t]
  }

  /** The page after populating `s` from `d`. */
  function Populate(s: DocState, d: SiteData): DocState {
    DocState(
      Rerender(s.regions, AllRegions, d),
      Retext(s.texts, AllSlots, d),
      InfoAfter(s.info, d.contact),
      CveAfter(s.cveLink, d.siteMeta.social),
      HeadOf(d.siteMeta, d.knowledges))
  }

  lemma RerenderFill(m: map<Region, seq<Node>>, rs: set<Region>, r: Region, d: SiteData)
    ensures Fill(Rerender(m, rs, d), r, RegionNodes(r, d)) == Rerender(m, rs + {r}, d)
  {
  }

  lemma RerenderCompose(m: map<Region, seq<Node>>, a: set<Region>, b: set<Region>, d: SiteData)
    ensures Rerender(Rerender(m, a, d), b, d) == Rerender(m, a + b, d)
  {
  }

  lemma RetextOne(m: map<TextSlot, string>, t: TextSlot, d: SiteData)
    ensures Retext(m, {t}, d) == if t in m then m[t := TextOf(t, d)] else m
  {
  }

  lemma RerenderOne(m: map<Region, seq<Node>>, r: Region, d: SiteData)
    ensures Fill(m, r, RegionNodes(r, d)) == Rerender(m, {r}, d)
  {
  }

  /** Rewriting one more slot is `SetText` on that slot. */
  lemma RetextAdd(m: map<TextSlot, string>, ts: set<TextSlot>, t: TextSlot, d: SiteData)
    ensures (var r := Retext(m, ts, d); if t in r then r[t := TextOf(t, d)] else r) == Retext(m, ts + {t}, d)
  {
  }

  lemma EveryRegion(r: Region)
    ensures r in AllRegions
  {
    match r
    case SocialLinks =>
    case HeaderButtons =>
    case TextRotation =>
    case ServicesRow =>
    case Testimonials =>
    case Timeline =>
    case SkillsInfo =>
    case KnowledgeList =>
    case Certificates =>
    case ClientCards =>
    case ToolCards =>
    case HonorRows =>
  }

  lemma EverySlot(t: TextSlot)
    ensures t in AllSlots
  {
    match t
    case HeaderName =>
    case HeaderSubtitle =>
    case HomeTitle =>
    case AboutSummary =>
  }

  lemma RetextCompose(m: map<TextSlot, string>, a: set<TextSlot>, b: set<TextSlot>, d: SiteData)
    ensures Retext(Retext(m, a, d), b, d) == Retext(m, a + b, d)
  {
  }

  /** Populating twice leaves the page as populating once: nothing is duplicated. */
  lemma PopulateIdempotent(s: DocState, d: SiteData)
    ensures Populate(Populate(s, d), d) == Populate(s, d)
  {
    var p := Populate(s, d);
    assert Rerender(p.regions, AllRegions, d) == p.regions;
    assert Retext(p.texts, AllSlots, d) == p.texts;
    forall t | t in p.info
      ensures InfoAfter(p.info, d.contact)[t] == p.info[t]
    {
    }
    assert InfoAfter(p.info, d.contact) == p.info;
  }

  /**
   * After populating, every region present on the page holds exactly one
   * fragment per source item, whatever it held before.
   */
  lemma PopulateCounts(s: DocState, d: SiteData, r: Region)
    requires r in s.regions
    ensures r in Populate(s, d).regions
    ensures |Populate(s, d).regions[r]| == SourceCount(r, d)
  {
    EveryRegion(r);
    RegionCount(r, d);
  }

  /** The regions and texts after populating do not depend on what the page showed before. */
  lemma PopulateReplacesContent(s1: DocState, s2: DocState, d: SiteData)
    requires s1.regions.Keys == s2.regions.Keys && s1.texts.Keys == s2.texts.Keys
    ensures Populate(s1, d).regions == Populate(s2, d).regions
    ensures Populate(s1, d).texts == Populate(s2, d).texts
    ensures Populate(s1, d).head == Populate(s2, d).head
  {
    forall r | r in s1.regions
      ensures Populate(s1, d).regions[r] == Populate(s2, d).regions[r]
    {
      EveryRegion(r);
    }
    forall t | t in s1.texts
      ensures Populate(s1, d).texts[t] == Populate(s2, d).texts[t]
    {
      EverySlot(t);
    }
  }

  /** A missing or empty honors list leaves the honors region empty. */
  lemma NoHonorsNoRows(s: DocState, d: SiteData)
    requires HonorRows in s.regions
    requires d.honorsAndAwards == None || d.honorsAndAwards == Some([])
    ensures Populate(s, d).regions[HonorRows] == []
  {
  }

  // ================================================================ renderers

  /** The social list: cleared, then linkedin, twitter and github, each only when present. */
  method FillSocialLinks(doc: Document, social: Social)
    modifies doc`regions
    ensures doc.regions == Fill(old(doc.regions), SocialLinks, SocialNodes(social))
  {
    ghost var r0 := doc.regions;
    ghost var l, t, g := SocialIf(LinkedIn, social.linkedin), SocialIf(Twitter, social.twitter),
                         SocialIf(GitHub, social.github);
    doc.Empty(SocialLinks);
    assert l == [] + l && l + [] == l && l + t + [] == l + t;
    if Truthy(social.linkedin) {
      FillAppend(r0, SocialLinks, [], SocialItem(LinkedIn, social.linkedin.value));
      doc.Append(SocialLinks, SocialItem(LinkedIn, social.linkedin.value));
    }
    assert doc.regions == Fill(r0, SocialLinks, l);
    if Truthy(social.twitter) {
      FillAppend(r0, SocialLinks, l, SocialItem(Twitter, social.twitter.value));
      doc.Append(SocialLinks, SocialItem(Twitter, social.twitter.value));
    }
    assert doc.regions == Fill(r0, SocialLinks, l + t);
    if Truthy(social.github) {
      FillAppend(r0, SocialLinks, l + t, SocialItem(GitHub, social.github.value));
      doc.Append(SocialLinks, SocialItem(GitHub, social.github.value));
    }
    assert doc.regions == Fill(r0, SocialLinks, l + t + g);
  }

  /** One badge's fragment: a link when it has a URL, a bare image otherwise. */
  method RenderBadge(badge: Badge) returns (node: Node)
    ensures node == BadgeNode(badge)
  {
    var isGuinness := Mentions(badge.name, "guinness");
    var isEjpt := Mentions(badge.name, "ejpt");
    var isIcca := Mentions(badge.name, "icca");
    if Truthy(badge.url) {
      var badgeClass := BadgeClass(BadgeFlags(isGuinness, isEjpt, isIcca));
      var newTab := !StartsWith(badge.url.value, "#");
      node := BadgeLink(badgeClass, newTab, badge.url.value, badge.image, badge.name);
    } else {
      var imgClass := "";
      if isGuinness {
        imgClass := imgClass + "guinness-badge";
        assert imgClass == "guinness-badge";
      }
      node := BadgeImage(imgClass, badge.image, badge.name);
    }
  }

  /** The header badges: one link or image per badge, classified by name. */
  method FillBadges(doc: Document, badges: seq<Badge>)
    modifies doc`regions
    ensures doc.regions == Fill(old(doc.regions), HeaderButtons, MapSeq(BadgeNode, badges))
  {
    ghost var r0 := doc.regions;
    ghost var target := MapSeq(BadgeNode, badges);
    doc.Empty(HeaderButtons);
    for i := 0 to |badges|
      invariant doc.regions == Fill(r0, HeaderButtons, target[..i])
    {
      var node := RenderBadge(badges[i]);
      doc.Append(HeaderButtons, node);
      assert target[..i + 1] == target[..i] + [node];
    }
    assert target[..|badges|] == target;
  }

  /** `populateHeader`: titles, social links, the CVE link and the badges. */
  method PopulateHeader(doc: Document, d: SiteData)
    modifies doc`regions, doc`texts, doc`cveLink
    ensures doc.regions == Rerender(old(doc.regions), HeaderRegions, d)
    ensures doc.texts == Retext(old(doc.texts), {HeaderName, HeaderSubtitle}, d)
    ensures doc.cveLink == CveAfter(old(doc.cveLink), d.siteMeta.social)
  {
    var meta := d.siteMeta;
    ghost var t0 := doc.texts;
    RetextOne(t0, HeaderName, d);
    RetextAdd(t0, {HeaderName}, HeaderSubtitle, d);
    doc.SetText(HeaderName, meta.owner.name);
    doc.SetText(HeaderSubtitle, meta.subtitle);
    assert {HeaderName} + {HeaderSubtitle} == {HeaderName, HeaderSubtitle};

    ghost var r0 := doc.regions;
    FillSocialLinks(doc, meta.social);
    RerenderOne(r0, SocialLinks, d);

    if Truthy(meta.social.cve) {
      doc.SetCveLink(meta.social.cve.value);
    }

    FillBadges(doc, d.badges);
    RerenderFill(r0, {SocialLinks}, HeaderButtons, d);
    assert {SocialLinks} + {HeaderButtons} == HeaderRegions;
  }

  /** The roles carousel: one item per role. */
  method FillRoles(doc: Document, roles: seq<string>)
    modifies doc`regions
    ensures doc.regions == Fill(old(doc.regions), TextRotation, MapSeq(RoleNode, roles))
  {
    ghost var r0 := doc.regions;
    ghost var target := MapSeq(RoleNode, roles);
    doc.Empty(TextRotation);
    for i := 0 to |roles|
      invariant doc.regions == Fill(r0, TextRotation, target[..i])
    {
      doc.Append(TextRotation, RoleItem(roles[i]));
      assert target[..i + 1] == target[..i] + [RoleItem(roles[i])];
    }
    assert target[..|roles|] == target;
  }

  /** `populateHome`: the home title and the roles carousel items. */
  method PopulateHome(doc: Document, d: SiteData)
    modifies doc`regions, doc`texts
    ensures doc.regions == Rerender(old(doc.regions), HomeRegions, d)
    ensures doc.texts == Retext(old(doc.texts), {HomeTitle}, d)
  {
    RetextOne(doc.texts, HomeTitle, d);
    doc.SetText(HomeTitle, d.siteMeta.owner.name);
    RerenderOne(doc.regions, TextRotation, d);
    FillRoles(doc, d.about.roles);
  }

  /** The `.each` over the contact values of the about section. */
  method FillContactInfo(doc: Document, contact: Contact)
    modifies doc`info
    ensures doc.info == InfoAfter(old(doc.info), contact)
  {
    ghost var info0 := doc.info;
    var pending := doc.info.Keys;
    while pending != {}
      invariant pending <= info0.Keys
      invariant doc.info.Keys == info0.Keys
      invariant forall t :: t in info0 ==>
                  doc.info[t] == if t in pending then info0[t] else ContactValue(t, contact).GetOr(info0[t])
      modifies doc`info
      decreases pending
    {
      var title :| title in pending;
      if title == "Residence" {
        doc.SetInfo(title, Text(contact.location));
      } else if title == "Email" {
        doc.SetInfo(title, MailLink("mailto:" + contact.email, contact.email));
      } else if title == "Phone" {
        doc.SetInfo(title, TelLink("tel:" + StripWhitespace(contact.phone), contact.phone));
      }
      pending := pending - {title};
    }
    assert doc.info == InfoAfter(info0, contact);
  }

  /** One column's HTML: an icon block per service, in order. */
  method BuildColumn(columnServices: seq<Service>) returns (blocks: seq<ServiceBlock>)
    ensures blocks == MapSeq(ServiceBlockOf, columnServices)
  {
    blocks := [];
    for j := 0 to |columnServices|
      invariant blocks == MapSeq(ServiceBlockOf, columnServices[..j])
    {
      var service := columnServices[j];
      var icon := DefaultIcon;
      if service.title == "Web Servers" {
        icon := "lnr-apartment";
      } else if service.title == "Bug Hunting" {
        icon := "lnr-bug";
      } else if service.title == "Technical Consultancy" {
        icon := "lnr-question-circle";
      }
      MapSeqSnoc(ServiceBlockOf, columnServices, j);
      blocks := blocks + [ServiceBlock(icon, service.title, service.description)];
    }
    assert columnServices[..|columnServices|] == columnServices;
  }

  /** The services row: one column per two services. */
  method FillServices(doc: Document, services: seq<Service>)
    modifies doc`regions
    ensures doc.regions == Fill(old(doc.regions), ServicesRow, ServiceColumns(services))
  {
    ghost var r0 := doc.regions;
    ghost var target := ServiceColumns(services);
    doc.Empty(ServicesRow);
    var totalColumns := ColumnCount(|services|);
    ChunkShape(services);
    for colIndex := 0 to totalColumns
      invariant doc.regions == Fill(r0, ServicesRow, target[..colIndex])
      modifies doc`regions
    {
      var startIndex := colIndex * ServicesPerColumn;
      var endIndex := Min(startIndex + ServicesPerColumn, |services|);
      ChunkAt(services, colIndex);
      var blocks := BuildColumn(services[startIndex..endIndex]);
      ghost var node := ServiceColumn(blocks);
      assert node == target[colIndex];
      FillAppend(r0, ServicesRow, target[..colIndex], node);
      doc.Append(ServicesRow, ServiceColumn(blocks));
      assert target[..colIndex + 1] == target[..colIndex] + [node];
    }
    assert target[..totalColumns] == target;
  }

  /** The testimonials carousel: one item per testimonial. */
  method FillTestimonials(doc: Document, testimonials: seq<Testimonial>)
    modifies doc`regions
    ensures doc.regions == Fill(old(doc.regions), Testimonials, MapSeq(TestimonialNode, testimonials))
  {
    ghost var r0 := doc.regions;
    ghost var target := MapSeq(TestimonialNode, testimonials);
    doc.Empty(Testimonials);
    for i := 0 to |testimonials|
      invariant doc.regions == Fill(r0, Testimonials, target[..i])
    {
      var t := testimonials[i];
      var node := TestimonialItem(t.text, t.author, t.position);
      doc.Append(Testimonials, node);
      assert target[..i + 1] == target[..i] + [node];
    }
    assert target[..|testimonials|] == target;
  }

  /** `populateAbout`: summary, contact values, services and testimonials. */
  method PopulateAbout(doc: Document, d: SiteData)
    modifies doc`regions, doc`texts, doc`info
    ensures doc.regions == Rerender(old(doc.regions), AboutRegions, d)
    ensures doc.texts == Retext(old(doc.texts), {AboutSummary}, d)
    ensures doc.info == InfoAfter(old(doc.info), d.contact)
  {
    RetextOne(doc.texts, AboutSummary, d);
    doc.SetText(AboutSummary, d.about.summary);
    FillContactInfo(doc, d.contact);

    ghost var r0 := doc.regions;
    FillServices(doc, d.about.services);
    RerenderOne(r0, ServicesRow, d);
    FillTestimonials(doc, d.about.testimonials);
    RerenderFill(r0, {ServicesRow}, Testimonials, d);
    assert {ServicesRow} + {Testimonials} == AboutRegions;
  }

  /** The experience timeline: one item per position. */
  method FillTimeline(doc: Document, experience: seq<Experience>)
    modifies doc`regions
    ensures doc.regions == Fill(old(doc.regions), Timeline, MapSeq(TimelineNode, experience))
  {
    ghost var r0 := doc.regions;
    ghost var target := MapSeq(TimelineNode, experience);
    doc.Empty(Timeline);
    for i := 0 to |experience|
      invariant doc.regions == Fill(r0, Timeline, target[..i])
    {
      var exp := experience[i];
      var node := TimelineItem(exp.period, exp.company, exp.role);
      doc.Append(Timeline, node);
      assert target[..i + 1] == target[..i] + [node];
    }
    assert target[..|experience|] == target;
  }

  /** The skill bars: skill `index` is styled `skill-(index + 1)`. */
  method FillSkills(doc: Document, technical: seq<Skill>)
    modifies doc`regions
    ensures doc.regions == Fill(old(doc.regions), SkillsInfo, SkillNodes(technical))
  {
    ghost var r0 := doc.regions;
    ghost var target := SkillNodes(technical);
    doc.Empty(SkillsInfo);
    for index := 0 to |technical|
      invariant doc.regions == Fill(r0, SkillsInfo, target[..index])
    {
      var skill := technical[index];
      var skillNum := index + 1;
      var node := SkillItem(skill.name, skill.level, skillNum);
      doc.Append(SkillsInfo, node);
      assert target[..index + 1] == target[..index] + [node];
    }
    assert target[..|technical|] == target;
  }

  /** The knowledges list: one item per entry. */
  method FillKnowledges(doc: Document, knowledges: seq<string>)
    modifies doc`regions
    ensures doc.regions == Fill(old(doc.regions), KnowledgeList, MapSeq(KnowledgeNode, knowledges))
  {
    ghost var r0 := doc.regions;
    ghost var target := MapSeq(KnowledgeNode, knowledges);
    doc.Empty(KnowledgeList);
    for i := 0 to |knowledges|
      invariant doc.regions == Fill(r0, KnowledgeList, target[..i])
    {
      doc.Append(KnowledgeList, KnowledgeItem(knowledges[i]));
      assert target[..i + 1] == target[..i] + [KnowledgeItem(knowledges[i])];
    }
    assert target[..|knowledges|] == target;
  }

  /** The certificates: one item per certification, with a credential line only when there is an ID. */
  method FillCertificates(doc: Document, certifications: seq<Certification>)
    modifies doc`regions
    ensures doc.regions == Fill(old(doc.regions), Certificates, MapSeq(CertificateNode, certifications))
  {
    ghost var r0 := doc.regions;
    ghost var target := MapSeq(CertificateNode, certifications);
    doc.Empty(Certificates);
    for i := 0 to |certifications|
      invariant doc.regions == Fill(r0, Certificates, target[..i])
    {
      var cert := certifications[i];
      var credId := if Truthy(cert.credentialId) then cert.credentialId else None;
      var node := CertificateItem(cert.name, cert.badgeUrl, credId, cert.date, cert.issuer);
      doc.Append(Certificates, node);
      assert target[..i + 1] == target[..i] + [node];
    }
    assert target[..|certifications|] == target;
  }

  /** `populateResume`: experience timeline, skills, knowledges and certificates. */
  method PopulateResume(doc: Document, d: SiteData)
    modifies doc`regions
    ensures doc.regions == Rerender(old(doc.regions), ResumeRegions, d)
  {
    ghost var r0 := doc.regions;
    FillTimeline(doc, d.experience);
    RerenderOne(r0, Timeline, d);
    FillSkills(doc, d.skills.technical);
    RerenderFill(r0, {Timeline}, SkillsInfo, d);
    FillKnowledges(doc, d.skills.knowledges);
    RerenderFill(r0, {Timeline, SkillsInfo}, KnowledgeList, d);
    FillCertificates(doc, d.certifications);
    RerenderFill(r0, {Timeline, SkillsInfo, KnowledgeList}, Certificates, d);
    assert {Timeline} + {SkillsInfo} == {Timeline, SkillsInfo};
    assert {Timeline, SkillsInfo} + {KnowledgeList} == {Timeline, SkillsInfo, KnowledgeList};
    assert {Timeline, SkillsInfo, KnowledgeList} + {Certificates} == ResumeRegions;
  }

  /** `populateClients`: one card per client, tagged only when the client has a tag. */
  method PopulateClients(doc: Document, d: SiteData)
    modifies doc`regions
    ensures doc.regions == Rerender(old(doc.regions), {ClientCards}, d)
  {
    ghost var r0 := doc.regions;
    ghost var target := MapSeq(ClientNode, d.clients);
    doc.Empty(ClientCards);
    for i := 0 to |d.clients|
      invariant doc.regions == Fill(r0, ClientCards, target[..i])
      modifies doc`regions
    {
      var client := d.clients[i];
      var tag := if Truthy(client.tag) then client.tag else None;
      var node := ClientItem(client.name, tag, client.projectUrl, client.image);
      doc.Append(ClientCards, node);
      assert target[..i + 1] == target[..i] + [node];
    }
    assert target[..|d.clients|] == target;
    RerenderOne(r0, ClientCards, d);
  }

  /** `populateTools`: one card per tool, with a description paragraph only when there is one. */
  method PopulateTools(doc: Document, d: SiteData)
    modifies doc`regions
    ensures doc.regions == Rerender(old(doc.regions), {ToolCards}, d)
  {
    ghost var r0 := doc.regions;
    ghost var target := MapSeq(ToolNode, d.projectsAndTools);
    doc.Empty(ToolCards);
    for i := 0 to |d.projectsAndTools|
      invariant doc.regions == Fill(r0, ToolCards, target[..i])
      modifies doc`regions
    {
      var tool := d.projectsAndTools[i];
      var description := if Truthy(tool.description) then tool.description else None;
      var node := ToolItem(tool.name, tool.language, tool.repository, tool.image, description);
      doc.Append(ToolCards, node);
      assert target[..i + 1] == target[..i] + [node];
    }
    assert target[..|d.projectsAndTools|] == target;
    RerenderOne(r0, ToolCards, d);
  }

  /** `populateHonors`: emptied, then left empty when there are no honors. */
  method PopulateHonors(doc: Document, d: SiteData)
    modifies doc`regions
    ensures doc.regions == Rerender(old(doc.regions), {HonorRows}, d)
  {
    ghost var r0 := doc.regions;
    RerenderOne(r0, HonorRows, d);
    doc.Empty(HonorRows);
    if d.honorsAndAwards.None? || |d.honorsAndAwards.value| == 0 {
      return;
    }
    var honors := d.honorsAndAwards.value;
    ghost var target := MapSeq(HonorNode, honors);
    for i := 0 to |honors|
      invariant doc.regions == Fill(r0, HonorRows, target[..i])
      modifies doc`regions
    {
      var honor := honors[i];
      var link := if Truthy(honor.link) then honor.link else None;
      var description := if Truthy(honor.description) then honor.description else None;
      var image := if Truthy(honor.image) then honor.image.value else DefaultHonorImage;
      var when := if Truthy(honor.date) then honor.date else honor.year;
      var node := HonorItem(honor.title, honor.issuer, image, when, description, link);
      doc.Append(HonorRows, node);
      assert target[..i + 1] == target[..i] + [node];
    }
    assert target[..|honors|] == target;
  }

  /** `updateMetaTags`: the strings written to the title, meta tags and structured data. */
  method UpdateMetaTags(doc: Document, d: SiteData)
    modifies doc`head
    ensures doc.head == HeadOf(d.siteMeta, d.knowledges)
  {
    var meta := d.siteMeta;
    var pageTitle := meta.owner.name + " - " + meta.subtitle;
    var shareTitle := meta.owner.name + " | " + meta.subtitle;
    var keywords := match meta.keywords
      case KeywordList(xs) => Join(xs, ", ")
      case KeywordText(s) => s;
    var person := PersonOf(meta, d.knowledges);
    var website := WebsiteOf(meta);
    doc.SetHead(Head(pageTitle, meta.description, keywords,
                     meta.url, shareTitle, meta.description, meta.image,
                     meta.url, shareTitle, meta.description, meta.image,
                     person, website));
  }

  /** `populatePage` with the document loaded: every renderer in its fixed order. */
  method PopulateAll(doc: Document, d: SiteData)
    modifies doc`regions, doc`texts, doc`info, doc`cveLink, doc`head
    ensures doc.State() == Populate(old(doc.State()), d)
  {
    ghost var s0 := doc.State();
    PopulateHeader(doc, d);
    PopulateHome(doc, d);
    PopulateAbout(doc, d);
    PopulateResume(doc, d);
    PopulateClients(doc, d);
    PopulateTools(doc, d);
    PopulateHonors(doc, d);
    UpdateMetaTags(doc, d);

    ghost var m := s0.regions;
    RerenderCompose(m, HeaderRegions, HomeRegions, d);
    RerenderCompose(m, HeaderRegions + HomeRegions, AboutRegions, d);
    RerenderCompose(m, HeaderRegions + HomeRegions + AboutRegions, ResumeRegions, d);
    RerenderCompose(m, HeaderRegions + HomeRegions + AboutRegions + ResumeRegions, {ClientCards}, d);
    RerenderCompose(m, HeaderRegions + HomeRegions + AboutRegions + ResumeRegions + {ClientCards}, {ToolCards}, d);
    RerenderCompose(m, HeaderRegions + HomeRegions + AboutRegions + ResumeRegions + {ClientCards} + {ToolCards},
                    {HonorRows}, d);
    assert HeaderRegions + HomeRegions + AboutRegions + ResumeRegions + {ClientCards} + {ToolCards} + {HonorRows}
        == AllRegions;

    ghost var t := s0.texts;
    RetextCompose(t, {HeaderName, HeaderSubtitle}, {HomeTitle}, d);
    RetextCompose(t, {HeaderName, HeaderSubtitle} + {HomeTitle}, {AboutSummary}, d);
    assert {HeaderName, HeaderSubtitle} + {HomeTitle} + {AboutSummary} == AllSlots;
  }

  // ================================================================ the loaded document

  /** The module's state: the document once loaded, and the page it populates. */
  class Loader {
    var siteData: Option<SiteData>
    const doc: Document

    constructor (page: Document)
      ensures doc == page && siteData == None
    {
      doc := page;
      siteData := None;
    }

    /** `populatePage`: does nothing until the data document has been loaded. */
    method PopulatePage()
      modifies doc`regions, doc`texts, doc`info, doc`cveLink, doc`head
      ensures siteData.None? ==> doc.State() == old(doc.State())
      ensures siteData.Some? ==> doc.State() == Populate(old(doc.State()), siteData.value)
    {
      if siteData.None? {
        return;
      }
      PopulateAll(doc, siteData.value);
    }

    /** The success callback of the fetch: keep the document, then populate the page. */
    method Loaded(data: SiteData)
      modifies this`siteData, doc`regions, doc`texts, doc`info, doc`cveLink, doc`head
      ensures siteData == Some(data)
      ensures doc.State() == Populate(old(doc.State()), data)
    {
      siteData := Some(data);
      PopulatePage();
    }

    /** `getData`. */
    method GetData() returns (d: Option<SiteData>)
      ensures d == siteData
    {
      d := siteData;
    }
  }

  /** `getData` after the fetch has succeeded returns the loaded document. */
  method LoadedData(loader: Loader, data: SiteData) returns (d: Option<SiteData>)
    modifies loader, loader.doc`regions, loader.doc`texts, loader.doc`info, loader.doc`cveLink, loader.doc`head
    ensures d == Some(data)
    ensures loader.doc.State() == Populate(old(loader.doc.State()), data)
  {
    loader.Loaded(data);
    d := loader.GetData();
  }

  /** Populating again after a load changes nothing. */
  method Repopulate(loader: Loader, data: SiteData)
    modifies loader, loader.doc`regions, loader.doc`texts, loader.doc`info, loader.doc`cveLink, loader.doc`head
    ensures loader.doc.State() == Populate(old(loader.doc.State()), data)
  {
    loader.Loaded(data);
    ghost var once := loader.doc.State();
    loader.PopulatePage();
    PopulateIdempotent(old(loader.doc.State()), data);
    assert loader.doc.State() == once;
  }
}
