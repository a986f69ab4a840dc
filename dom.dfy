/**
 * The page as the populator sees it: a fixed set of container regions that
 * it empties and appends fragments to, a few text slots, the contact
 * `.info-list` values keyed by their sibling title, the CVE menu link and
 * the head (title, meta tags, structured data).
 *
 * A region, slot or link that the static page does not contain is absent
 * from the corresponding map or `None`; jQuery calls on an empty selection
 * do nothing, and so do the methods below.
 */
module Dom {
  import opened Wrappers

  /** The containers the renderers rebuild, one per jQuery selection. */
  datatype Region =
    | SocialLinks      // .social-links ul
    | HeaderButtons    // .header-buttons
    | TextRotation     // .text-rotation
    | ServicesRow      // second .row of the about-me section
    | Testimonials     // .testimonials.owl-carousel
    | Timeline         // .timeline
    | SkillsInfo       // .skills-info
    | KnowledgeList    // .knowledges
    | Certificates     // last .row of the resume section
    | ClientCards      // clients .blog-masonry
    | ToolCards        // tools .blog-masonry
    | HonorRows        // honors .row

  /** The elements whose text the renderers replace. */
  datatype TextSlot = HeaderName | HeaderSubtitle | HomeTitle | AboutSummary

  datatype Network = LinkedIn | Twitter | GitHub

  datatype ServiceBlock = ServiceBlock(icon: string, title: string, description: string)

  /**
   * One appended fragment, carrying the values interpolated into it. The
   * `Option` fields `credentialId`, `tag`, `description` and `link` are
   * conditional sub-fragments, `Some` exactly when the template emits them.
   * The badges' `alt` and the honor's `when` are always emitted; there
   * `None` stands for a missing value, which the page shows as `undefined`.
   */
  datatype Node =
    | Text(text: string)
    | MailLink(href: string, shown: string)
    | TelLink(href: string, shown: string)
    | SocialItem(network: Network, href: string)
    | BadgeLink(linkClass: string, newTab: bool, href: string, image: string, alt: Option<string>)
    | BadgeImage(imageClass: string, image: string, alt: Option<string>)
    | RoleItem(role: string)
    | ServiceColumn(blocks: seq<ServiceBlock>)
    | TestimonialItem(quote: string, author: string, position: string)
    | TimelineItem(period: string, company: string, role: string)
    | SkillItem(name: string, level: int, ordinal: nat)
    | KnowledgeItem(knowledge: string)
    | CertificateItem(name: string, logo: string, credentialId: Option<string>, date: string, issuer: string)
    | ClientItem(name: string, tag: Option<string>, projectUrl: string, image: string)
    | ToolItem(name: string, language: string, repository: string, image: string, description: Option<string>)
    | HonorItem(title: string, issuer: string, image: string, when: Option<string>,
                description: Option<string>, link: Option<string>)

  /** The schema.org Person object written to #structured-data-person. */
  datatype PersonLd = PersonLd(
    name: string,
    alternateName: seq<string>,
    url: string,
    image: string,
    jobTitle: string,
    sameAs: seq<string>,
    knowsAbout: seq<string>,
    description: string,
    email: string,
    telephone: string,
    addressLocality: string)

  /** The schema.org WebSite object written to #structured-data-website. */
  datatype WebsiteLd = WebsiteLd(
    name: string,
    url: string,
    description: string,
    authorName: string,
    searchUrlTemplate: string)

  /** The strings `updateMetaTags` writes into the document head. */
  datatype Head = Head(
    title: string,
    description: string,
    keywords: string,
    ogUrl: string,
    ogTitle: string,
    ogDescription: string,
    ogImage: string,
    twitterUrl: string,
    twitterTitle: string,
    twitterDescription: string,
    twitterImage: string,
    person: PersonLd,
    website: WebsiteLd)

  datatype DocState = DocState(
    regions: map<Region, seq<Node>>,
    texts: map<TextSlot, string>,
    info: map<string, Node>,
    cveLink: Option<string>,
    head: Head)

  /** `region.empty()` followed by appending `nodes`, on a region that may be absent. */
  function Fill(m: map<Region, seq<Node>>, r: Region, nodes: seq<Node>): (m': map<Region, seq<Node>>)
    ensures m'.Keys == m.Keys
    ensures r in m ==> m'[r] == nodes
    ensures forall q :: q in m && q != r ==> m'[q] == m[q]
  {
    if r in m then m[r := nodes] else m
  }

  /** Appending to a filled region extends what it was filled with. */
  lemma FillAppend(m: map<Region, seq<Node>>, r: Region, nodes: seq<Node>, node: Node)
    ensures (var f := Fill(m, r, nodes); if r in f then f[r := f[r] + [node]] else f) == Fill(m, r, nodes + [node])
  {
  }

  class Document {
    var regions: map<Region, seq<Node>>
    var texts: map<TextSlot, string>
    var info: map<string, Node>
    var cveLink: Option<string>
    var head: Head

    ghost function State(): DocState
      reads this
    {
      DocState(regions, texts, info, cveLink, head)
    }

    /** The static page before population. */
    constructor (initial: DocState)
      ensures State() == initial
    {
      regions, texts, info := initial.regions, initial.texts, initial.info;
      cveLink, head := initial.cveLink, initial.head;
    }

    /** `$(region).empty()`. */
    method Empty(r: Region)
      modifies this`regions
      ensures regions == Fill(old(regions), r, [])
    {
      if r in regions {
        regions := regions[r := []];
      }
    }

    /** `$(region).append(node)`. */
    method Append(r: Region, node: Node)
      modifies this`regions
      ensures regions == if r in old(regions) then old(regions)[r := old(regions)[r] + [node]] else old(regions)
    {
      if r in regions {
        regions := regions[r := regions[r] + [node]];
      }
    }

    /** `$(slot).text(s)`. */
    method SetText(t: TextSlot, s: string)
      modifies this`texts
      ensures texts == if t in old(texts) then old(texts)[t := s] else old(texts)
    {
      if t in texts {
        texts := texts[t := s];
      }
    }

    /** `$(value).text(...)` or `.html(...)` on the value beside the title `title`. */
    method SetInfo(title: string, node: Node)
      modifies this`info
      ensures info == if title in old(info) then old(info)[title := node] else old(info)
    {
      if title in info {
        info := info[title := node];
      }
    }

    /** `$('a[href*="CVE"]').attr('href', url)`. */
    method SetCveLink(url: string)
      modifies this`cveLink
      ensures cveLink == if old(cveLink).Some? then Some(url) else None
    {
      if cveLink.Some? {
        cveLink := Some(url);
      }
    }

    /** `document.title = ...`, the meta `attr` writes and the two JSON-LD script texts. */
    method SetHead(h: Head)
      modifies this`head
      ensures head == h
    {
      head := h;
    }
  }
}
