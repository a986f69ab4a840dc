/**
 * The decision and layout rules of the page populator, as functions of the
 * data document: which fragments each region receives, how badges are
 * classified, how services are laid out in columns, which icon a service
 * gets, how the contact values and the head strings are formed.
 */
module Rules {
  import opened Wrappers
  import opened JsStrings
  import opened Schema
  import opened Dom

  /** `xs.map(f)`. */
  function MapSeq<A, B>(f: A -> B, xs: seq<A>): (ys: seq<B>)
    ensures |ys| == |xs|
    ensures forall k :: 0 <= k < |xs| ==> ys[k] == f(xs[k])
  {
    seq(|xs|, k requires 0 <= k < |xs| => f(xs[k]))
  }

  /** Mapping distributes over concatenation. */
  lemma MapSeqAppend<A, B>(f: A -> B, xs: seq<A>, ys: seq<A>)
    ensures MapSeq(f, xs + ys) == MapSeq(f, xs) + MapSeq(f, ys)
  {
  }

  /** Mapping a prefix one item longer appends that item's image. */
  lemma MapSeqSnoc<A, B>(f: A -> B, xs: seq<A>, i: nat)
    requires i < |xs|
    ensures MapSeq(f, xs[..i + 1]) == MapSeq(f, xs[..i]) + [f(xs[i])]
  {
  }

  function Min(a: int, b: int): int {
    if a <= b then a else b
  }

  // ================================================================ service columns

  const ServicesPerColumn: nat := 2

  /** `Math.ceil(n / ServicesPerColumn)` for a list length `n`. */
  function ColumnCount(n: nat): (c: nat)
    ensures c * ServicesPerColumn >= n
    ensures (c - 1) * ServicesPerColumn < n
  {
    (n + 1) / 2
  }

  /** The list cut into consecutive columns of `ServicesPerColumn` items, the last possibly shorter. */
  function Chunk<T>(s: seq<T>): seq<seq<T>>
    decreases |s|
  {
    if s == [] then []
    else if |s| <= ServicesPerColumn then [s]
    else [s[..ServicesPerColumn]] + Chunk(s[ServicesPerColumn..])
  }

  function Concat<T>(cols: seq<seq<T>>): seq<T>
    decreases |cols|
  {
    if cols == [] then [] else cols[0] + Concat(cols[1..])
  }

  /** Reading the columns in order gives back the list. */
  lemma {:induction false} ChunkConcat<T>(s: seq<T>)
    ensures Concat(Chunk(s)) == s
    decreases |s|
  {
    if |s| > ServicesPerColumn {
      var rest := Chunk(s[ServicesPerColumn..]);
      ChunkConcat(s[ServicesPerColumn..]);
      assert ([s[..ServicesPerColumn]] + rest)[1..] == rest;
      assert s[..ServicesPerColumn] + s[ServicesPerColumn..] == s;
    } else if s != [] {
      assert [s][1..] == [];
      assert s + [] == s;
    }
  }

  /**
   * There are ceil(n/2) columns; each holds one or two items, and only the
   * last may hold one.
   */
  lemma {:induction false} ChunkShape<T>(s: seq<T>)
    ensures |Chunk(s)| == ColumnCount(|s|)
    ensures forall k :: 0 <= k < |Chunk(s)| ==> 1 <= |Chunk(s)[k]| <= ServicesPerColumn
    ensures forall k :: 0 <= k < |Chunk(s)| - 1 ==> |Chunk(s)[k]| == ServicesPerColumn
    decreases |s|
  {
    if |s| > ServicesPerColumn {
      ChunkShape(s[ServicesPerColumn..]);
      var rest := Chunk(s[ServicesPerColumn..]);
      assert Chunk(s) == [s[..ServicesPerColumn]] + rest;
      forall k | 1 <= k < |Chunk(s)|
        ensures Chunk(s)[k] == rest[k - 1]
      {
      }
    }
  }

  /** Column `k` is the slice the `colIndex` loop takes: `slice(2k, min(2k + 2, n))`. */
  lemma {:induction false} ChunkAt<T>(s: seq<T>, k: nat)
    requires k < ColumnCount(|s|)
    ensures |Chunk(s)| == ColumnCount(|s|)
    ensures k * ServicesPerColumn <= Min(k * ServicesPerColumn + ServicesPerColumn, |s|) <= |s|
    ensures Chunk(s)[k] == s[k * ServicesPerColumn..Min(k * ServicesPerColumn + ServicesPerColumn, |s|)]
    decreases |s|
  {
    ChunkShape(s);
    if |s| > ServicesPerColumn && k > 0 {
      var tail := s[ServicesPerColumn..];
      ChunkAt(tail, k - 1);
      assert Chunk(s)[k] == Chunk(tail)[k - 1];
      assert tail[(k - 1) * ServicesPerColumn..Min((k - 1) * ServicesPerColumn + ServicesPerColumn, |tail|)]
          == s[k * ServicesPerColumn..Min(k * ServicesPerColumn + ServicesPerColumn, |s|)];
    }
  }

  /** Lists of 0, 1, 2, 3 and 4 services give 0, 1, 1, 2 and 2 columns. */
  lemma ColumnsOfSmallLists<T>(s: seq<T>)
    requires |s| <= 4
    ensures |Chunk(s)| == [0, 1, 1, 2, 2][|s|]
  {
    ChunkShape(s);
  }

  // ================================================================ service icons

  const DefaultIcon := "lnr-code"

  /** The titles that have an icon of their own. */
  const IconByTitle: map<string, string> :=
    map["Web Servers" := "lnr-apartment",
        "Bug Hunting" := "lnr-bug",
        "Technical Consultancy" := "lnr-question-circle"]

  /** The icon of a service, chosen by exact title. */
  function ServiceIcon(title: string): (icon: string)
    ensures title in IconByTitle ==> icon == IconByTitle[title]
    ensures title !in IconByTitle ==> icon == DefaultIcon
  {
    if title == "Web Servers" then "lnr-apartment"
    else if title == "Bug Hunting" then "lnr-bug"
    else if title == "Technical Consultancy" then "lnr-question-circle"
    else "lnr-code"
  }

  function ServiceBlockOf(s: Service): ServiceBlock {
    ServiceBlock(ServiceIcon(s.title), s.title, s.description)
  }

  function ColumnNode(column: seq<Service>): Node {
    ServiceColumn(MapSeq(ServiceBlockOf, column))
  }

  function ServiceColumns(services: seq<Service>): seq<Node> {
    MapSeq(ColumnNode, Chunk(services))
  }

  /** The service blocks of a row of column fragments, read column by column. */
  function Blocks(cols: seq<Node>): seq<ServiceBlock>
    decreases |cols|
  {
    if cols == [] then []
    else (if cols[0].ServiceColumn? then cols[0].blocks else []) + Blocks(cols[1..])
  }

  lemma {:induction false} ColumnBlocks(services: seq<Service>)
    ensures Blocks(ServiceColumns(services)) == MapSeq(ServiceBlockOf, services)
    decreases |services|
  {
    if |services| > ServicesPerColumn {
      var head := services[..ServicesPerColumn];
      var tail := services[ServicesPerColumn..];
      assert ServiceColumns(services) == [ColumnNode(head)] + ServiceColumns(tail);
      assert ([ColumnNode(head)] + ServiceColumns(tail))[1..] == ServiceColumns(tail);
      ColumnBlocks(tail);
      MapSeqAppend(ServiceBlockOf, head, tail);
      assert head + tail == services;
    } else if services != [] {
      assert ServiceColumns(services) == [ColumnNode(services)];
      assert [ColumnNode(services)][1..] == [];
      assert MapSeq(ServiceBlockOf, services) + [] == MapSeq(ServiceBlockOf, services);
    }
  }

  /**
   * The services row holds ceil(n/2) column fragments, column `k` built from
   * the `k`th slice; each has one or two blocks, only the last may have one,
   * and the blocks read column by column are the services in order.
   */
  lemma ServiceColumnsKeepOrder(services: seq<Service>)
    ensures |ServiceColumns(services)| == ColumnCount(|services|)
    ensures forall k :: 0 <= k < |ServiceColumns(services)| ==>
              ServiceColumns(services)[k] == ColumnNode(Chunk(services)[k])
    ensures forall k :: 0 <= k < |ServiceColumns(services)| ==>
              ServiceColumns(services)[k].ServiceColumn? &&
              1 <= |ServiceColumns(services)[k].blocks| <= ServicesPerColumn
    ensures forall k :: 0 <= k < |ServiceColumns(services)| - 1 ==>
              |ServiceColumns(services)[k].blocks| == ServicesPerColumn
    ensures Blocks(ServiceColumns(services)) == MapSeq(ServiceBlockOf, services)
  {
    ChunkShape(services);
    ColumnBlocks(services);
    forall k | 0 <= k < |ServiceColumns(services)|
      ensures ServiceColumns(services)[k] == ColumnNode(Chunk(services)[k])
    {
    }
  }

  // ================================================================ badges

  datatype BadgeFlags = BadgeFlags(guinness: bool, ejpt: bool, icca: bool)

  /** `badge.name && badge.name.toLowerCase().includes(keyword)`. */
  predicate Mentions(name: Option<string>, keyword: string) {
    Truthy(name) && Contains(Lower(name.value), keyword)
  }

  function Flags(name: Option<string>): BadgeFlags {
    BadgeFlags(Mentions(name, "guinness"), Mentions(name, "ejpt"), Mentions(name, "icca"))
  }

  function ClassSuffix(on: bool, token: string): string {
    if on then " " + token else ""
  }

  /** The class of a linked badge: `ine-badge`, then one token per flag in a fixed order. */
  function BadgeClass(f: BadgeFlags): string {
    "ine-badge" + (ClassSuffix(f.guinness, "guinness-badge")
      + (ClassSuffix(f.ejpt, "ejpt-badge") + ClassSuffix(f.icca, "icca-badge")))
  }

  function TokenIf(on: bool, token: string): seq<string> {
    if on then [token] else []
  }

  lemma NoSpace(token: string)
    requires token in {"ine-badge", "guinness-badge", "ejpt-badge", "icca-badge"}
    ensures token != [] && ' ' !in token
  {
  }

  lemma ClassListSuffix(on: bool, token: string, rest: string)
    requires token != [] && ' ' !in token
    requires rest == [] || rest[0] == ' '
    ensures ClassSuffix(on, token) + rest == [] || (ClassSuffix(on, token) + rest)[0] == ' '
    ensures ClassList(ClassSuffix(on, token) + rest) == TokenIf(on, token) + ClassList(rest)
  {
    if on {
      assert " " + token + rest == " " + (token + rest);
      ClassListSpace(token + rest);
      ClassListWord(token, rest);
    } else {
      assert "" + rest == rest;
    }
  }

  /** Optional words, each behind a space, tokenize into exactly the words switched on. */
  lemma ClassListOfSuffixes(x: bool, a: string, y: bool, b: string, z: bool, c: string)
    requires a != [] && ' ' !in a && b != [] && ' ' !in b && c != [] && ' ' !in c
    ensures var r := ClassSuffix(x, a) + (ClassSuffix(y, b) + ClassSuffix(z, c));
      (r == [] || r[0] == ' ') &&
      ClassList(r) == TokenIf(x, a) + (TokenIf(y, b) + TokenIf(z, c))
  {
    var sb, sc := ClassSuffix(y, b), ClassSuffix(z, c);
    ClassListSuffix(z, c, "");
    assert sc + "" == sc;
    ClassListSuffix(y, b, sc);
    ClassListSuffix(x, a, sb + sc);
  }

  /** A first word followed by three optional words tokenizes into exactly those words. */
  lemma ClassListOfWords(w: string, x: bool, a: string, y: bool, b: string, z: bool, c: string)
    requires w != [] && ' ' !in w
    requires a != [] && ' ' !in a && b != [] && ' ' !in b && c != [] && ' ' !in c
    ensures ClassList(w + (ClassSuffix(x, a) + (ClassSuffix(y, b) + ClassSuffix(z, c))))
         == [w] + (TokenIf(x, a) + (TokenIf(y, b) + TokenIf(z, c)))
  {
    ClassListOfSuffixes(x, a, y, b, z, c);
    ClassListWord(w, ClassSuffix(x, a) + (ClassSuffix(y, b) + ClassSuffix(z, c)));
  }

  /** The class attribute holds `ine-badge` followed by exactly the flagged tokens, in order. */
  lemma BadgeClassTokens(f: BadgeFlags)
    ensures ClassList(BadgeClass(f)) ==
      ["ine-badge"] + (TokenIf(f.guinness, "guinness-badge")
        + (TokenIf(f.ejpt, "ejpt-badge") + TokenIf(f.icca, "icca-badge")))
  {
    NoSpace("ine-badge");
    NoSpace("guinness-badge");
    NoSpace("ejpt-badge");
    NoSpace("icca-badge");
    ClassListOfWords("ine-badge", f.guinness, "guinness-badge", f.ejpt, "ejpt-badge", f.icca, "icca-badge");
  }

  /**
   * Each marker class is present exactly when the lower-cased name mentions
   * its keyword, and the first class is always `ine-badge`.
   */
  lemma BadgeClassMembership(name: Option<string>)
    ensures ClassList(BadgeClass(Flags(name)))[0] == "ine-badge"
    ensures "guinness-badge" in ClassList(BadgeClass(Flags(name))) <==> Mentions(name, "guinness")
    ensures "ejpt-badge" in ClassList(BadgeClass(Flags(name))) <==> Mentions(name, "ejpt")
    ensures "icca-badge" in ClassList(BadgeClass(Flags(name))) <==> Mentions(name, "icca")
  {
    BadgeClassTokens(Flags(name));
    assert "ine-badge" != "guinness-badge" && "ine-badge" != "ejpt-badge" && "ine-badge" != "icca-badge";
    assert "guinness-badge" != "ejpt-badge" && "guinness-badge" != "icca-badge";
    assert "ejpt-badge"[0] != "icca-badge"[0];
  }

  /** Matching ignores case: a name and its lower-cased form mention the same keywords. */
  lemma MentionsIgnoresCase(name: string, keyword: string)
    ensures Mentions(Some(Lower(name)), keyword) == Mentions(Some(name), keyword)
  {
    LowerIdempotent(name);
  }

  /** A badge with a URL is a link; otherwise a bare image marked only for Guinness. */
  function BadgeNode(b: Badge): Node {
    var f := Flags(b.name);
    if Truthy(b.url) then
      BadgeLink(BadgeClass(f), !StartsWith(b.url.value, "#"), b.url.value, b.image, b.name)
    else
      BadgeImage(if f.guinness then "guinness-badge" else "", b.image, b.name)
  }

  lemma BadgeRendering(b: Badge)
    ensures BadgeNode(b).BadgeLink? <==> Truthy(b.url)
    ensures !Truthy(b.url) ==> BadgeNode(b).BadgeImage?
    ensures BadgeNode(b).BadgeLink? ==> BadgeNode(b).linkClass == BadgeClass(Flags(b.name))
    ensures BadgeNode(b).BadgeLink? ==>
              BadgeNode(b).href == b.url.value &&
              (BadgeNode(b).newTab <==> b.url.value[0] != '#')
    ensures BadgeNode(b).BadgeImage? ==>
              ClassList(BadgeNode(b).imageClass) == TokenIf(Mentions(b.name, "guinness"), "guinness-badge")
  {
    if !Truthy(b.url) && Mentions(b.name, "guinness") {
      ClassListWord("guinness-badge", "");
      assert "guinness-badge" + "" == "guinness-badge";
    }
  }

  // ================================================================ social links

  function SocialIf(n: Network, url: Option<string>): seq<Node> {
    if Truthy(url) then [SocialItem(n, url.value)] else []
  }

  /** The list items of `.social-links ul`: linkedin, twitter, github, each only when present. */
  function SocialNodes(s: Social): seq<Node> {
    SocialIf(LinkedIn, s.linkedin) + SocialIf(Twitter, s.twitter) + SocialIf(GitHub, s.github)
  }

  /** `[...].filter(Boolean)` on optional strings. */
  function PresentValues(xs: seq<Option<string>>): seq<string>
    decreases |xs|
  {
    if xs == [] then []
    else (if Truthy(xs[0]) then [xs[0].value] else []) + PresentValues(xs[1..])
  }

  /** The Person `sameAs` list. */
  function SameAs(s: Social): seq<string> {
    PresentValues([s.linkedin, s.twitter, s.github])
  }

  function HrefOf(n: Node): string {
    if n.SocialItem? then n.href else ""
  }

  /** The header's social links and the structured data's `sameAs` name the same URLs in the same order. */
  lemma SocialLinksMatchSameAs(s: Social)
    ensures MapSeq(HrefOf, SocialNodes(s)) == SameAs(s)
  {
    var l := SocialIf(LinkedIn, s.linkedin);
    var t := SocialIf(Twitter, s.twitter);
    var g := SocialIf(GitHub, s.github);
    MapSeqAppend(HrefOf, l + t, g);
    MapSeqAppend(HrefOf, l, t);
    SocialIfHref(LinkedIn, s.linkedin);
    SocialIfHref(Twitter, s.twitter);
    SocialIfHref(GitHub, s.github);
    PresentValuesCons(s.linkedin, [s.twitter, s.github]);
    PresentValuesCons(s.twitter, [s.github]);
    PresentValuesCons(s.github, []);
    assert [s.linkedin] + [s.twitter, s.github] == [s.linkedin, s.twitter, s.github];
    assert [s.twitter] + [s.github] == [s.twitter, s.github];
    assert [s.github] + [] == [s.github];
  }

  lemma PresentValuesCons(x: Option<string>, rest: seq<Option<string>>)
    ensures PresentValues([x] + rest) == (if Truthy(x) then [x.value] else []) + PresentValues(rest)
  {
    assert ([x] + rest)[1..] == rest;
  }

  lemma SocialIfHref(n: Network, x: Option<string>)
    ensures MapSeq(HrefOf, SocialIf(n, x)) == (if Truthy(x) then [x.value] else [])
  {
    if Truthy(x) {
      var node := SocialItem(n, x.value);
      assert SocialIf(n, x) == [node];
      assert HrefOf(node) == x.value;
      assert MapSeq(HrefOf, [node]) == [HrefOf(node)];
    }
  }

  /** A network has a list item exactly when its URL is present. */
  lemma SocialPresence(s: Social)
    ensures |SocialNodes(s)| <= 3
    ensures (exists k :: 0 <= k < |SocialNodes(s)| && SocialNodes(s)[k].network == LinkedIn) <==> Truthy(s.linkedin)
    ensures (exists k :: 0 <= k < |SocialNodes(s)| && SocialNodes(s)[k].network == Twitter) <==> Truthy(s.twitter)
    ensures (exists k :: 0 <= k < |SocialNodes(s)| && SocialNodes(s)[k].network == GitHub) <==> Truthy(s.github)
  {
    var l := SocialIf(LinkedIn, s.linkedin);
    var t := SocialIf(Twitter, s.twitter);
    var g := SocialIf(GitHub, s.github);
    if Truthy(s.linkedin) { assert SocialNodes(s)[0] == l[0]; }
    if Truthy(s.twitter) { assert SocialNodes(s)[|l|] == t[0]; }
    if Truthy(s.github) { assert SocialNodes(s)[|l| + |t|] == g[0]; }
  }

  // ================================================================ list fragments

  function RoleNode(role: string): Node {
    RoleItem(role)
  }

  function TestimonialNode(t: Testimonial): Node {
    TestimonialItem(t.text, t.author, t.position)
  }

  function TimelineNode(e: Experience): Node {
    TimelineItem(e.period, e.company, e.role)
  }

  /** Skill `index` (from 0) is styled `skill-(index + 1)`. */
  function SkillNode(s: Skill, index: nat): Node {
    SkillItem(s.name, s.level, index + 1)
  }

  function SkillNodes(skills: seq<Skill>): seq<Node> {
    seq(|skills|, k requires 0 <= k < |skills| => SkillNode(skills[k], k))
  }

  lemma SkillOrdinals(skills: seq<Skill>)
    ensures |SkillNodes(skills)| == |skills|
    ensures forall k :: 0 <= k < |skills| ==>
              SkillNodes(skills)[k].ordinal == k + 1 && SkillNodes(skills)[k].name == skills[k].name
  {
  }

  function KnowledgeNode(k: string): Node {
    KnowledgeItem(k)
  }

  /** The credential line is emitted only for a truthy `credentialId`. */
  function CertificateNode(c: Certification): Node {
    CertificateItem(c.name, c.badgeUrl, WhenTruthy(c.credentialId), c.date, c.issuer)
  }

  /** The category tag is emitted only for a truthy `tag`. */
  function ClientNode(c: Client): Node {
    ClientItem(c.name, WhenTruthy(c.tag), c.projectUrl, c.image)
  }

  /** The description paragraph is emitted only for a truthy `description`. */
  function ToolNode(t: Tool): Node {
    ToolItem(t.name, t.language, t.repository, t.image, WhenTruthy(t.description))
  }

  const DefaultHonorImage := "img/main_photo.png"

  /** `image || 'img/main_photo.png'`, `date || year`, and the optional description and link. */
  function HonorNode(h: Honor): Node {
    HonorItem(h.title, h.issuer, OrElse(h.image, DefaultHonorImage), Or(h.date, h.year),
              WhenTruthy(h.description), WhenTruthy(h.link))
  }

  /** A missing honors list renders like an empty one. */
  function HonorNodes(honors: Option<seq<Honor>>): seq<Node> {
    match honors
    case None => []
    case Some(hs) => MapSeq(HonorNode, hs)
  }

  /** The credential-ID line appears exactly when `credentialId` is truthy, and then shows it. */
  lemma CredentialLine(c: Certification)
    ensures CertificateNode(c).credentialId.Some? <==> Truthy(c.credentialId)
    ensures CertificateNode(c).credentialId.Some? ==> CertificateNode(c).credentialId == c.credentialId
  {
  }

  /** A client card carries a category tag exactly when the client's `tag` is truthy. */
  lemma ClientTag(c: Client)
    ensures ClientNode(c).tag.Some? <==> Truthy(c.tag)
    ensures ClientNode(c).tag.Some? ==> ClientNode(c).tag == c.tag
  {
  }

  /** A tool card carries a description paragraph exactly when the tool's `description` is truthy. */
  lemma ToolDescription(t: Tool)
    ensures ToolNode(t).description.Some? <==> Truthy(t.description)
    ensures ToolNode(t).description.Some? ==> ToolNode(t).description == t.description
  {
  }

  /**
   * An honor shows its image or the default photo, its date or else its
   * year, and its own description and link only when those are truthy.
   */
  lemma HonorFields(h: Honor)
    ensures HonorNode(h).HonorItem?
    ensures HonorNode(h).image == (if Truthy(h.image) then h.image.value else DefaultHonorImage)
    ensures HonorNode(h).image != ""
    ensures HonorNode(h).when == (if Truthy(h.date) then h.date else h.year)
    ensures HonorNode(h).description.Some? <==> Truthy(h.description)
    ensures HonorNode(h).link.Some? <==> Truthy(h.link)
    ensures HonorNode(h).description.Some? ==> HonorNode(h).description == h.description
    ensures HonorNode(h).link.Some? ==> HonorNode(h).link == h.link
  {
  }

  // ================================================================ what each region receives

  function RegionNodes(r: Region, d: SiteData): seq<Node> {
    match r
    case SocialLinks => SocialNodes(d.siteMeta.social)
    case HeaderButtons => MapSeq(BadgeNode, d.badges)
    case TextRotation => MapSeq(RoleNode, d.about.roles)
    case ServicesRow => ServiceColumns(d.about.services)
    case Testimonials => MapSeq(TestimonialNode, d.about.testimonials)
    case Timeline => MapSeq(TimelineNode, d.experience)
    case SkillsInfo => SkillNodes(d.skills.technical)
    case KnowledgeList => MapSeq(KnowledgeNode, d.skills.knowledges)
    case Certificates => MapSeq(CertificateNode, d.certifications)
    case ClientCards => MapSeq(ClientNode, d.clients)
    case ToolCards => MapSeq(ToolNode, d.projectsAndTools)
    case HonorRows => HonorNodes(d.honorsAndAwards)
  }

  /** How many items the source offers for each region. */
  function SourceCount(r: Region, d: SiteData): nat {
    match r
    case SocialLinks => |SameAs(d.siteMeta.social)|
    case HeaderButtons => |d.badges|
    case TextRotation => |d.about.roles|
    case ServicesRow => ColumnCount(|d.about.services|)
    case Testimonials => |d.about.testimonials|
    case Timeline => |d.experience|
    case SkillsInfo => |d.skills.technical|
    case KnowledgeList => |d.skills.knowledges|
    case Certificates => |d.certifications|
    case ClientCards => |d.clients|
    case ToolCards => |d.projectsAndTools|
    case HonorRows => if d.honorsAndAwards.Some? then |d.honorsAndAwards.value| else 0
  }

  /** Every region receives one fragment per source item (per column, for services). */
  lemma RegionCount(r: Region, d: SiteData)
    ensures |RegionNodes(r, d)| == SourceCount(r, d)
  {
    match r
    case SocialLinks =>
      SocialLinksMatchSameAs(d.siteMeta.social);
    case ServicesRow =>
      ChunkShape(d.about.services);
    case _ =>
  }

  function TextOf(t: TextSlot, d: SiteData): string {
    match t
    case HeaderName => d.siteMeta.owner.name
    case HeaderSubtitle => d.siteMeta.subtitle
    case HomeTitle => d.siteMeta.owner.name
    case AboutSummary => d.about.summary
  }

  // ================================================================ contact values

  /** The `tel:` target: the phone number with every `\s` character removed. */
  function TelHref(phone: string): string {
    "tel:" + StripWhitespace(phone)
  }

  /** The new content of the value beside `title`, or `None` when it is left alone. */
  function ContactValue(title: string, c: Contact): Option<Node> {
    if title == "Residence" then Some(Text(c.location))
    else if title == "Email" then Some(MailLink("mailto:" + c.email, c.email))
    else if title == "Phone" then Some(TelLink(TelHref(c.phone), c.phone))
    else None
  }

  /** The phone link dials the digits without whitespace but shows the number as written. */
  lemma PhoneLink(c: Contact)
    ensures ContactValue("Phone", c).value.shown == c.phone
    ensures StartsWith(ContactValue("Phone", c).value.href, "tel:")
    ensures ContactValue("Phone", c).value.href[4..] == StripWhitespace(c.phone)
    ensures forall i :: 4 <= i < |ContactValue("Phone", c).value.href| ==>
              !IsJsWhitespace(ContactValue("Phone", c).value.href[i])
  {
    StripRemovesExactlyWhitespace(c.phone);
    var h := TelHref(c.phone);
    assert h[4..] == StripWhitespace(c.phone);
    forall i | 4 <= i < |h| ensures !IsJsWhitespace(h[i]) {
      assert h[i] == StripWhitespace(c.phone)[i - 4];
    }
  }

  function InfoAfter(info: map<string, Node>, c: Contact): map<string, Node> {
    map t | t in info :: ContactValue(t, c).GetOr(info[t])
  }

  function CveAfter(link: Option<string>, s: Social): Option<string> {
    if Truthy(s.cve) && link.Some? then s.cve else link
  }

  // ================================================================ head

  /** `document.title`. */
  function PageTitle(m: SiteMeta): string {
    m.owner.name + " - " + m.subtitle
  }

  /** The Open Graph and Twitter titles. */
  function ShareTitle(m: SiteMeta): string {
    m.owner.name + " | " + m.subtitle
  }

  /** An array of keywords is joined with ", "; a string is used as it is. */
  function KeywordsContent(k: Keywords): string {
    match k
    case KeywordList(xs) => Join(xs, ", ")
    case KeywordText(s) => s
  }

  function PersonOf(m: SiteMeta, knowledges: Option<seq<string>>): PersonLd {
    PersonLd(m.owner.name, m.owner.alternateNames.GetOr([]), m.url, m.image, m.subtitle,
             SameAs(m.social), knowledges.GetOr([]), m.description,
             m.owner.email, m.owner.phone, m.owner.location)
  }

  function WebsiteOf(m: SiteMeta): WebsiteLd {
    WebsiteLd(m.owner.name + " - Portfolio", m.url, m.description, m.owner.name, m.url + "/#clients")
  }

  function HeadOf(m: SiteMeta, knowledges: Option<seq<string>>): Head {
    Head(PageTitle(m), m.description, KeywordsContent(m.keywords),
         m.url, ShareTitle(m), m.description, m.image,
         m.url, ShareTitle(m), m.description, m.image,
         PersonOf(m, knowledges), WebsiteOf(m))
  }

  /**
   * The page title reads name, " - ", subtitle; the share title is the same
   * string with '|' in place of '-'.
   */
  lemma TitleFormats(m: SiteMeta)
    ensures PageTitle(m)[..|m.owner.name|] == m.owner.name
    ensures PageTitle(m)[|m.owner.name|..|m.owner.name| + 3] == " - "
    ensures PageTitle(m)[|m.owner.name| + 3..] == m.subtitle
    ensures |ShareTitle(m)| == |PageTitle(m)|
    ensures forall i :: 0 <= i < |PageTitle(m)| && i != |m.owner.name| + 1 ==> ShareTitle(m)[i] == PageTitle(m)[i]
    ensures ShareTitle(m)[|m.owner.name| + 1] == '|'
  {
    var n := m.owner.name;
    forall i | 0 <= i < |PageTitle(m)| && i != |n| + 1
      ensures ShareTitle(m)[i] == PageTitle(m)[i]
    {
      if i < |n| {
        assert ShareTitle(m)[i] == n[i] == PageTitle(m)[i];
      } else if i < |n| + 3 {
        assert ShareTitle(m)[i] == " | "[i - |n|];
        assert PageTitle(m)[i] == " - "[i - |n|];
      } else {
        assert ShareTitle(m)[i] == m.subtitle[i - |n| - 3] == PageTitle(m)[i];
      }
    }
  }

  /** Keywords without commas can be read back from the meta content. */
  lemma KeywordsRoundTrip(xs: seq<string>)
    requires xs != []
    requires forall k :: 0 <= k < |xs| ==> ',' !in xs[k]
    ensures SplitList(KeywordsContent(KeywordList(xs))) == xs
  {
    SplitJoin(xs);
  }
}
