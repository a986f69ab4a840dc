/**
 * The data document the page is populated from (`data.json`), as far as the
 * populator reads it. A field the renderers test for presence is an
 * `Option`; a field they interpolate unconditionally is a plain value.
 */
module Schema {
  import opened Wrappers

  datatype Owner = Owner(
    name: string,
    alternateNames: Option<seq<string>>,
    email: string,
    phone: string,
    location: string)

  datatype Social = Social(
    linkedin: Option<string>,
    twitter: Option<string>,
    github: Option<string>,
    cve: Option<string>)

  /** `siteMeta.keywords` is either an array or already a string. */
  datatype Keywords = KeywordList(items: seq<string>) | KeywordText(text: string)

  datatype SiteMeta = SiteMeta(
    owner: Owner,
    subtitle: string,
    social: Social,
    description: string,
    keywords: Keywords,
    url: string,
    image: string)

  datatype Badge = Badge(name: Option<string>, url: Option<string>, image: string)

  datatype Service = Service(title: string, description: string)

  datatype Testimonial = Testimonial(text: string, author: string, position: string)

  datatype About = About(
    summary: string,
    roles: seq<string>,
    services: seq<Service>,
    testimonials: seq<Testimonial>)

  datatype Contact = Contact(location: string, email: string, phone: string)

  datatype Experience = Experience(period: string, company: string, role: string)

  datatype Skill = Skill(name: string, level: int)

  datatype Skills = Skills(technical: seq<Skill>, knowledges: seq<string>)

  datatype Certification = Certification(
    name: string,
    credentialId: Option<string>,
    date: string,
    issuer: string,
    badgeUrl: string)

  datatype Client = Client(name: string, tag: Option<string>, projectUrl: string, image: string)

  datatype Tool = Tool(
    name: string,
    language: string,
    repository: string,
    image: string,
    description: Option<string>)

  datatype Honor = Honor(
    title: string,
    issuer: string,
    date: Option<string>,
    year: Option<string>,
    image: Option<string>,
    description: Option<string>,
    link: Option<string>)

  datatype SiteData = SiteData(
    siteMeta: SiteMeta,
    badges: seq<Badge>,
    about: About,
    contact: Contact,
    experience: seq<Experience>,
    skills: Skills,
    certifications: seq<Certification>,
    clients: seq<Client>,
    projectsAndTools: seq<Tool>,
    honorsAndAwards: Option<seq<Honor>>,
    knowledges: Option<seq<string>>)
}
