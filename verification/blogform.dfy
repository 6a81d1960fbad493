/** The post form shared by the blog editor and the blog creator: twelve text
    fields, the per-field change handler that also derives the slug from the
    title, and the validation both save handlers run first. */
module BlogForm {
  import opened Text
  import opened Slugs
  import opened Wrappers

  datatype Field =
    | TitleField | SlugField | ExcerptField | ContentField | FeaturedImageField | CategoryField
    | TagsField | StatusField | PublishDateField | MetaTitleField | MetaDescriptionField | AuthorField

  datatype BlogData = BlogData(
    title: string,
    slug: string,
    excerpt: string,
    content: string,
    featuredImage: string,
    category: string,
    tags: string,
    status: string,
    publishDate: string,
    metaTitle: string,
    metaDescription: string,
    author: string)

  /** The state both pages start from. */
  const InitialBlog := BlogData("", "", "", "", "", "", "", "draft", "", "", "", "Admin")

  datatype Status = Draft | Published

  function StatusText(s: Status): string {
    match s
    case Draft => "draft"
    case Published => "published"
  }

  function Get(d: BlogData, f: Field): string {
    match f
    case TitleField => d.title
    case SlugField => d.slug
    case ExcerptField => d.excerpt
    case ContentField => d.content
    case FeaturedImageField => d.featuredImage
    case CategoryField => d.category
    case TagsField => d.tags
    case StatusField => d.status
    case PublishDateField => d.publishDate
    case MetaTitleField => d.metaTitle
    case MetaDescriptionField => d.metaDescription
    case AuthorField => d.author
  }

  /** `{ ...prev, [field]: value }`: field f becomes v and nothing else changes. */
  function Set(d: BlogData, f: Field, v: string): (e: BlogData)
    ensures Get(e, f) == v
    ensures forall g :: g != f ==> Get(e, g) == Get(d, g)
  {
    match f
    case TitleField => d.(title := v)
    case SlugField => d.(slug := v)
    case ExcerptField => d.(excerpt := v)
    case ContentField => d.(content := v)
    case FeaturedImageField => d.(featuredImage := v)
    case CategoryField => d.(category := v)
    case TagsField => d.(tags := v)
    case StatusField => d.(status := v)
    case PublishDateField => d.(publishDate := v)
    case MetaTitleField => d.(metaTitle := v)
    case MetaDescriptionField => d.(metaDescription := v)
    case AuthorField => d.(author := v)
  }

  /** Two forms that agree on every field are the same form. */
  lemma FieldsDetermine(d: BlogData, e: BlogData)
    requires forall g :: Get(d, g) == Get(e, g)
    ensures d == e
  {
    assert Get(d, TitleField) == Get(e, TitleField);
    assert Get(d, SlugField) == Get(e, SlugField);
    assert Get(d, ExcerptField) == Get(e, ExcerptField);
    assert Get(d, ContentField) == Get(e, ContentField);
    assert Get(d, FeaturedImageField) == Get(e, FeaturedImageField);
    assert Get(d, CategoryField) == Get(e, CategoryField);
    assert Get(d, TagsField) == Get(e, TagsField);
    assert Get(d, StatusField) == Get(e, StatusField);
    assert Get(d, PublishDateField) == Get(e, PublishDateField);
    assert Get(d, MetaTitleField) == Get(e, MetaTitleField);
    assert Get(d, MetaDescriptionField) == Get(e, MetaDescriptionField);
    assert Get(d, AuthorField) == Get(e, AuthorField);
  }

  /** `handleInputChange(field, value)`: the field takes the value; a title
      change also replaces the slug with the title's slug. */
  function InputChange(d: BlogData, f: Field, v: string): (e: BlogData)
    ensures f != TitleField ==> e == Set(d, f, v)
    ensures f == TitleField ==> e.title == v && e.slug == TitleSlug(v) && IsSlugText(e.slug)
    ensures forall g :: g != f && g != SlugField ==> Get(e, g) == Get(d, g)
    ensures f != TitleField && f != SlugField ==> e.slug == d.slug
  {
    var e := Set(d, f, v);
    if f == TitleField then Set(e, SlugField, TitleSlug(v)) else e
  }

  /** Editing the same field twice keeps only the second value. */
  lemma InputChangeOverwrites(d: BlogData, f: Field, v: string, w: string)
    ensures InputChange(InputChange(d, f, v), f, w) == InputChange(d, f, w)
  {
    var lhs, rhs := InputChange(InputChange(d, f, v), f, w), InputChange(d, f, w);
    forall g ensures Get(lhs, g) == Get(rhs, g) {
    }
    FieldsDetermine(lhs, rhs);
  }

  datatype SaveError = TitleMissing | ContentMissing

  /** The guards at the top of `handleSave`: a title that trims to nothing is
      reported first, then content that trims to nothing. */
  function CheckSave(d: BlogData): (r: Option<SaveError>)
    ensures r == Some(TitleMissing) <==> IsBlank(d.title)
    ensures r == Some(ContentMissing) <==> !IsBlank(d.title) && IsBlank(d.content)
    ensures r == None <==> !IsBlank(d.title) && !IsBlank(d.content)
  {
    if Trim(d.title) == [] then Some(TitleMissing)
    else if Trim(d.content) == [] then Some(ContentMissing)
    else None
  }
}
