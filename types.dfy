/** The records the site renders (types/index.ts), with TypeScript's optional
    fields as `Option` and the string-literal unions as enumerations. */
module Types {

  datatype Option<+T> = None | Some(value: T)

  /** A project's catalogue category (types/index.ts:10). */
  datatype Category = Crud | Trending | Specialized | All

  /** A portfolio project (types/index.ts:1-14). `images` and `video` are
      optional: an absent `images` is not the same as an empty one. */
  datatype Project = Project(
    id: string,
    title: string,
    description: string,
    image: string,
    technologies: seq<string>,
    demoUrl: Option<string>,
    githubUrl: Option<string>,
    client: Option<string>,
    category: Category,
    fullDescription: Option<string>,
    images: Option<seq<string>>,
    video: Option<string>)

  /** Contact details shown in the contact section (types/index.ts:22-29). */
  datatype ContactInfo = ContactInfo(
    email: string,
    whatsapp: string,
    github: Option<string>,
    linkedin: Option<string>,
    twitter: Option<string>,
    instagram: Option<string>)

  /** JavaScript truthiness of an optional string: present and not "". */
  predicate Truthy(s: Option<string>) {
    s.Some? && s.value != ""
  }
}
